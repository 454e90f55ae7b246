/** googlemusic/utils.py: the MAC-address text the desktop client reports
    and the "value after `KEY=`" extraction that login relies on. The node
    number is a parameter (`uuid.getnode()` is not part of this model). */
module Utils {

  import opened Results
  import opened Text

  const MacAddressSeparator: string := ":"

  // ---------------------------------------------------------------------
  // get_mac_address
  // ---------------------------------------------------------------------

  /** `[s[x:x+2] for x in range(0, len(s), 2)]`. */
  function Pairs(s: string): seq<string>
    decreases |s|
  {
    if |s| == 0 then []
    else if |s| <= 2 then [s]
    else [s[..2]] + Pairs(s[2..])
  }

  /** `sep.join(parts)`. */
  function Join(sep: string, parts: seq<string>): string {
    if parts == [] then []
    else if |parts| == 1 then parts[0]
    else parts[0] + sep + Join(sep, parts[1..])
  }

  /** `':'.join(pairs of '%012x' % node).upper()`: the node as upper-case
      hexadecimal, zero-padded to twelve digits, in groups of two. */
  function MacAddress(node: nat): (r: string)
    ensures forall i :: 0 <= i < |r| ==> !('a' <= r[i] <= 'z')
  {
    Upper(Join(MacAddressSeparator, Pairs(HexPad(node, 12))))
  }

  /** The groups are consecutive two-character slices taken from the left;
      only the last may be shorter, and it is when the text has odd length. */
  lemma {:induction false} PairsShape(s: string)
    ensures |Pairs(s)| == (|s| + 1) / 2
    ensures forall i :: 0 <= i < |Pairs(s)| ==>
      Pairs(s)[i] == s[2 * i..if 2 * i + 2 <= |s| then 2 * i + 2 else |s|]
    decreases |s|
  {
    if |s| > 2 {
      PairsShape(s[2..]);
      var r := Pairs(s);
      forall i | 0 <= i < |r|
        ensures r[i] == s[2 * i..if 2 * i + 2 <= |s| then 2 * i + 2 else |s|]
      {
        if i > 0 {
          assert r[i] == Pairs(s[2..])[i - 1];
        }
      }
    }
  }

  /** Hex text of odd length ends with a one-character group. */
  lemma OddLengthLastGroup(s: string)
    requires |s| % 2 == 1
    ensures |Pairs(s)| >= 1 && |Pairs(s)[|Pairs(s)| - 1]| == 1
  {
    PairsShape(s);
  }

  /** `s` with every `c` removed. */
  function Remove(c: char, s: string): (r: string)
    ensures c !in r
  {
    if s == [] then [] else (if s[0] == c then [] else [s[0]]) + Remove(c, s[1..])
  }

  lemma {:induction false} RemoveConcat(c: char, a: string, b: string)
    ensures Remove(c, a + b) == Remove(c, a) + Remove(c, b)
  {
    if a != [] {
      assert (a + b)[1..] == a[1..] + b;
      RemoveConcat(c, a[1..], b);
    } else {
      assert a + b == b;
    }
  }

  lemma {:induction false} RemoveAbsent(c: char, s: string)
    requires c !in s
    ensures Remove(c, s) == s
  {
    if s != [] {
      RemoveAbsent(c, s[1..]);
    }
  }

  lemma {:induction false} RemoveUpper(s: string)
    ensures Remove(':', Upper(s)) == Upper(Remove(':', s))
  {
    if s != [] {
      RemoveUpper(s[1..]);
      assert Upper(s)[1..] == Upper(s[1..]);
      UpperConcat(if s[0] == ':' then [] else [s[0]], Remove(':', s[1..]));
    }
  }

  /** Removing the separators from the joined groups gives back the text. */
  lemma {:induction false} RemoveJoinedPairs(s: string)
    requires ':' !in s
    ensures Remove(':', Join(MacAddressSeparator, Pairs(s))) == s
    decreases |s|
  {
    if |s| > 2 {
      var rest := Join(MacAddressSeparator, Pairs(s[2..]));
      assert Pairs(s)[1..] == Pairs(s[2..]);
      assert Join(MacAddressSeparator, Pairs(s)) == s[..2] + ":" + rest;
      RemoveConcat(':', s[..2] + ":", rest);
      RemoveConcat(':', s[..2], ":");
      assert ':' !in s[..2];
      RemoveAbsent(':', s[..2]);
      RemoveJoinedPairs(s[2..]);
      assert s == s[..2] + s[2..];
    } else if |s| > 0 {
      RemoveAbsent(':', s);
    }
  }

  /** Stripping the separators from a MAC address and reading the rest as
      hexadecimal gives back the node, whatever its size. */
  lemma MacAddressRoundTrip(node: nat)
    ensures HexValue(Remove(':', MacAddress(node))) == node
  {
    var h := HexPad(node, 12);
    assert ':' !in h by {
      assert forall i :: 0 <= i < |h| ==> IsLowerHexDigit(h[i]);
    }
    RemoveUpper(Join(MacAddressSeparator, Pairs(h)));
    RemoveJoinedPairs(h);
    HexValueUpper(h);
    HexPadValue(node, 12);
  }

  /** Joining two-character groups with ':' puts a separator at every third
      position and the groups' characters in order everywhere else. */
  lemma {:induction false} JoinPairsAt(parts: seq<string>)
    requires |parts| >= 1 && forall k :: 0 <= k < |parts| ==> |parts[k]| == 2
    ensures |Join(MacAddressSeparator, parts)| == 3 * |parts| - 1
    ensures forall i :: 0 <= i < 3 * |parts| - 1 ==>
      Join(MacAddressSeparator, parts)[i] == if i % 3 == 2 then ':' else parts[i / 3][i % 3]
  {
    if |parts| > 1 {
      JoinPairsAt(parts[1..]);
      var j := Join(MacAddressSeparator, parts);
      var rest := Join(MacAddressSeparator, parts[1..]);
      assert j == parts[0] + ":" + rest;
      forall i | 0 <= i < 3 * |parts| - 1
        ensures j[i] == if i % 3 == 2 then ':' else parts[i / 3][i % 3]
      {
        if i >= 3 {
          assert j[i] == rest[i - 3];
          assert (i - 3) / 3 == i / 3 - 1 && (i - 3) % 3 == i % 3;
        }
      }
    }
  }

  /** Twelve lower-case hexadecimal digits joined in pairs: 17 characters,
      ':' exactly at every third position, digits elsewhere. */
  lemma JoinedDigitsShape(h: string)
    requires |h| == 12 && forall i :: 0 <= i < 12 ==> IsLowerHexDigit(h[i])
    ensures |Join(MacAddressSeparator, Pairs(h))| == 17
    ensures forall i :: 0 <= i < 17 ==>
      var c := Join(MacAddressSeparator, Pairs(h))[i];
      if i % 3 == 2 then c == ':' else IsLowerHexDigit(c)
  {
    var parts := Pairs(h);
    PairsShape(h);
    assert forall k :: 0 <= k < 6 ==> parts[k] == h[2 * k..2 * k + 2];
    JoinPairsAt(parts);
    var j := Join(MacAddressSeparator, parts);
    forall i | 0 <= i < 17 && i % 3 != 2
      ensures IsLowerHexDigit(j[i])
    {
      assert j[i] == parts[i / 3][i % 3] == h[2 * (i / 3) + i % 3];
    }
  }

  /** For a node below 2^48 the address has 17 characters: six groups of two
      upper-case hexadecimal digits with ':' between them. */
  lemma MacAddressShape(node: nat)
    requires node < Pow16(12)
    ensures |MacAddress(node)| == 17
    ensures forall i :: 0 <= i < 17 ==> (MacAddress(node)[i] == ':' <==> i % 3 == 2)
    ensures forall i :: 0 <= i < 17 && i % 3 != 2 ==> IsUpperHexDigit(MacAddress(node)[i])
  {
    var h := HexPad(node, 12);
    HexLength(node, 12);
    JoinedDigitsShape(h);
    var j := Join(MacAddressSeparator, Pairs(h));
    var m := MacAddress(node);
    forall i | 0 <= i < 17
      ensures (m[i] == ':' <==> i % 3 == 2) && (i % 3 != 2 ==> IsUpperHexDigit(m[i]))
    {
      assert m[i] == UpperChar(j[i]);
    }
  }

  // ---------------------------------------------------------------------
  // get_from_text, for the literal patterns `KEY=(.*)` and `^KEY=(.*)`
  // ---------------------------------------------------------------------

  /** `KEY=(.*)` searches anywhere; `^KEY=(.*)` only at the start of a line. */
  datatype Pattern = Anywhere(key: string) | AtLineStart(key: string)

  /** What `(.*)` captures: everything up to the next newline. */
  function RestOfLine(s: string): (r: string)
    ensures r <= s && '\n' !in r
    ensures |r| == |s| || s[|r|] == '\n'
  {
    if s == [] || s[0] == '\n' then [] else [s[0]] + RestOfLine(s[1..])
  }

  /** `p` is the leftmost position where the pattern matches `text`. */
  predicate LeftmostMatch(pattern: Pattern, text: string, p: nat) {
    p <= |text| && MatchesAt(pattern.key, text, p, pattern.AtLineStart?)
    && forall q :: 0 <= q < p ==> !MatchesAt(pattern.key, text, q, pattern.AtLineStart?)
  }

  /** `re.search(pattern, text, re.MULTILINE).group(1)`: the rest of the line
      after the leftmost match of the key; no match raises. */
  function GetFromText(pattern: Pattern, text: string): (r: Result<string>)
    ensures r.Err? <==> forall p :: 0 <= p <= |text| ==> !MatchesAt(pattern.key, text, p, pattern.AtLineStart?)
    ensures r.Err? ==> r.error == NoMatch
    ensures r.Ok? ==>
      exists p: nat :: LeftmostMatch(pattern, text, p) && r.value == RestOfLine(text[p + |pattern.key|..])
  {
    match FirstMatch(pattern.key, text, pattern.AtLineStart?)
    case None => Err(NoMatch)
    case Some(p) =>
      assert LeftmostMatch(pattern, text, p);
      Ok(RestOfLine(text[p + |pattern.key|..]))
  }
}
