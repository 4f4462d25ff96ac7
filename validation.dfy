/** `isUuid`: the check the cart page applies to the outlet id before placing
    an order. The pattern is 8-4-4-4-12 hex digits joined by '-', anchored at
    both ends, matched case-insensitively against the trimmed string; no
    version or variant digit is checked. */
module Validation {
  import opened Types
  import opened Text

  /** `[0-9a-f]` under the `i` flag. */
  predicate IsHexDigit(c: char) {
    '0' <= c <= '9' || 'a' <= c <= 'f' || 'A' <= c <= 'F'
  }

  predicate AllHex(u: string) {
    forall i :: 0 <= i < |u| ==> IsHexDigit(u[i])
  }

  /** The group lengths of the pattern. */
  const UuidGroups: seq<nat> := [8, 4, 4, 4, 12]

  /** `t` is, from start to end, groups of hex digits of the given lengths with
      a single '-' between consecutive groups. */
  function MatchGroups(t: string, groups: seq<nat>): bool
    decreases |groups|
  {
    if groups == [] then t == []
    else if |t| < groups[0] then false
    else if |groups| == 1 then AllHex(t) && |t| == groups[0]
    else
      AllHex(t[..groups[0]]) && |t| > groups[0] && t[groups[0]] == '-'
      && MatchGroups(t[groups[0] + 1..], groups[1..])
  }

  /** `isUuid(s)`: null and undefined are rejected; otherwise the trimmed string
      must match the whole pattern, which makes it exactly 36 characters long. */
  function IsUuid(s: Option<string>): (r: bool)
    ensures s.None? ==> !r
    ensures r ==> |Trim(s.value)| == 36
  {
    if s.None? then false
    else
      var t := Trim(s.value);
      UuidLength(t);
      MatchGroups(t, UuidGroups)
  }

  /** The positions of the dashes. */
  predicate DashAt(i: int) {
    i == 8 || i == 13 || i == 18 || i == 23
  }

  /** A reading of the pattern position by position: 36 characters, '-' at
      positions 8, 13, 18 and 23, a hex digit everywhere else. */
  predicate UuidShape(t: string) {
    |t| == 36 && forall i :: 0 <= i < 36 ==> if DashAt(i) then t[i] == '-' else IsHexDigit(t[i])
  }

  /** Every string the group matcher accepts is 36 characters long. */
  lemma UuidLength(t: string)
    ensures MatchGroups(t, UuidGroups) ==> |t| == 36
  {
    if MatchGroups(t, UuidGroups) {
      MatchUuidIsShape(t);
    }
  }

  /** The group matcher and the positional reading agree on every string. */
  lemma MatchUuidIsShape(t: string)
    ensures MatchGroups(t, UuidGroups) <==> UuidShape(t)
  {
    if MatchGroups(t, UuidGroups) {
      MatchedIsShape(t);
    }
    if UuidShape(t) {
      ShapeIsMatched(t);
    }
  }

  lemma {:induction false} MatchedIsShape(t: string)
    requires MatchGroups(t, UuidGroups)
    ensures UuidShape(t)
  {
    var g := UuidGroups;
    assert g[1..] == [4, 4, 4, 12] && g[1..][1..] == [4, 4, 12];
    assert g[1..][1..][1..] == [4, 12] && g[1..][1..][1..][1..] == [12];
    var t1 := t[9..];
    var t2 := t1[5..];
    var t3 := t2[5..];
    var t4 := t3[5..];
    assert MatchGroups(t1, [4, 4, 4, 12]);
    assert MatchGroups(t2, [4, 4, 12]);
    assert MatchGroups(t3, [4, 12]);
    assert MatchGroups(t4, [12]);
    assert |t| == 36;
    forall i | 0 <= i < 36 ensures if DashAt(i) then t[i] == '-' else IsHexDigit(t[i]) {
      if i < 8 { assert t[..8][i] == t[i]; }
      else if 9 <= i < 13 { assert t1[..4][i - 9] == t[i]; }
      else if 14 <= i < 18 { assert t2[..4][i - 14] == t[i]; }
      else if 19 <= i < 23 { assert t3[..4][i - 19] == t[i]; }
      else if 24 <= i { assert t4[i - 24] == t[i]; }
    }
  }

  lemma {:induction false} ShapeIsMatched(t: string)
    requires UuidShape(t)
    ensures MatchGroups(t, UuidGroups)
  {
    var g := UuidGroups;
    assert g[1..] == [4, 4, 4, 12] && g[1..][1..] == [4, 4, 12];
    assert g[1..][1..][1..] == [4, 12] && g[1..][1..][1..][1..] == [12];
    var t1 := t[9..];
    var t2 := t1[5..];
    var t3 := t2[5..];
    var t4 := t3[5..];
    assert AllHex(t4) && |t4| == 12 by {
      forall i | 0 <= i < |t4| ensures IsHexDigit(t4[i]) { assert t4[i] == t[i + 24]; }
    }
    assert MatchGroups(t4, [12]);
    assert AllHex(t3[..4]) by {
      forall i | 0 <= i < 4 ensures IsHexDigit(t3[..4][i]) { assert t3[..4][i] == t[i + 19]; }
    }
    assert t3[4] == t[23];
    assert MatchGroups(t3, [4, 12]);
    assert AllHex(t2[..4]) by {
      forall i | 0 <= i < 4 ensures IsHexDigit(t2[..4][i]) { assert t2[..4][i] == t[i + 14]; }
    }
    assert t2[4] == t[18];
    assert MatchGroups(t2, [4, 4, 12]);
    assert AllHex(t1[..4]) by {
      forall i | 0 <= i < 4 ensures IsHexDigit(t1[..4][i]) { assert t1[..4][i] == t[i + 9]; }
    }
    assert t1[4] == t[13];
    assert MatchGroups(t1, [4, 4, 4, 12]);
    assert AllHex(t[..8]) by {
      forall i | 0 <= i < 8 ensures IsHexDigit(t[..8][i]) { assert t[..8][i] == t[i]; }
    }
  }

  /** `isUuid` accepts exactly the strings whose trim has the positional shape. */
  lemma IsUuidIffShape(s: string)
    ensures IsUuid(Some(s)) <==> UuidShape(Trim(s))
  {
    MatchUuidIsShape(Trim(s));
  }

  /** Whitespace around the input does not change the verdict. */
  lemma IsUuidIgnoresPadding(p: string, s: string, q: string)
    requires Blank(p) && Blank(q)
    ensures IsUuid(Some(p + s + q)) == IsUuid(Some(s))
  {
    TrimPadding(p, s, q);
  }

  /** ASCII upper-casing of one character. */
  function UpperChar(c: char): char {
    if 'a' <= c <= 'z' then (c as int - 32) as char else c
  }

  function Upper(s: string): (r: string)
    ensures |r| == |s| && forall i :: 0 <= i < |s| ==> r[i] == UpperChar(s[i])
  {
    seq(|s|, i requires 0 <= i < |s| => UpperChar(s[i]))
  }

  /** Hex digits are matched in either case: upper-casing an already trimmed
      string does not change the verdict. */
  lemma IsUuidCaseInsensitive(t: string)
    requires Trim(t) == t
    ensures IsUuid(Some(Upper(t))) == IsUuid(Some(t))
  {
    var u := Upper(t);
    TrimOfTrimmed(u);
    MatchUuidIsShape(t);
    MatchUuidIsShape(u);
    if UuidShape(t) {
      forall i | 0 <= i < 36 ensures if DashAt(i) then u[i] == '-' else IsHexDigit(u[i]) {
        assert u[i] == UpperChar(t[i]);
      }
    }
    if UuidShape(u) {
      forall i | 0 <= i < 36 ensures if DashAt(i) then t[i] == '-' else IsHexDigit(t[i]) {
        assert u[i] == UpperChar(t[i]);
      }
    }
  }

  /** 00000000-0000-0000-0000-000000000000 */
  function ZeroUuid(): (z: string)
    ensures |z| == 36 && forall i :: 0 <= i < 36 ==> z[i] == if DashAt(i) then '-' else '0'
  {
    seq(36, i requires 0 <= i < 36 => if DashAt(i) then '-' else '0')
  }

  /** The all-zero UUID, whose version digit is 0, is accepted: no version
      or variant digit is checked. */
  lemma AllZeroUuidAccepted()
    ensures IsUuid(Some(ZeroUuid()))
  {
    var z := ZeroUuid();
    assert UuidShape(z);
    TrimOfTrimmed(z);
    IsUuidIffShape(z);
  }

  /** A short table code, which the scan context may carry as its outlet id, is rejected. */
  lemma ShortCodeRejected()
    ensures !IsUuid(Some("TABLE_12"))
  {
    TrimOfTrimmed("TABLE_12");
    IsUuidIffShape("TABLE_12");
  }
}
