/** JavaScript's `String.prototype.trim`, which every core file applies to user
    input (codes, phone numbers, notes, outlet ids). */
module Text {

  /** The characters `trim` strips: ECMAScript WhiteSpace (tab, vertical tab,
      form feed, space, no-break space, byte-order mark and the other Unicode
      "Zs" space separators) and LineTerminator (LF, CR, U+2028, U+2029). */
  predicate IsSpace(c: char) {
    || c == '\t' || c == '\n' || c == '\U{000B}' || c == '\U{000C}' || c == '\r'
    || c == ' ' || c == '\U{00A0}' || c == '\U{1680}'
    || ('\U{2000}' <= c <= '\U{200A}')
    || c == '\U{2028}' || c == '\U{2029}' || c == '\U{202F}' || c == '\U{205F}'
    || c == '\U{3000}' || c == '\U{FEFF}'
  }

  /** Every character of `s` is stripped by `trim`. */
  predicate Blank(s: string) {
    forall i :: 0 <= i < |s| ==> IsSpace(s[i])
  }

  /** `s` without its leading space characters. */
  function TrimStart(s: string): string
    decreases |s|
  {
    if s != [] && IsSpace(s[0]) then TrimStart(s[1..]) else s
  }

  /** `s` without its trailing space characters. */
  function TrimEnd(s: string): string
    decreases |s|
  {
    if s != [] && IsSpace(s[|s| - 1]) then TrimEnd(s[..|s| - 1]) else s
  }

  /** The leading trim is a suffix whose dropped part is blank and which does
      not start with a space. */
  lemma {:induction false} TrimStartShape(s: string)
    ensures var r := TrimStart(s);
      && |r| <= |s| && r == s[|s| - |r|..]
      && Blank(s[..|s| - |r|])
      && (r != [] ==> !IsSpace(r[0]))
    decreases |s|
  {
    if s != [] && IsSpace(s[0]) {
      var t := s[1..];
      TrimStartShape(t);
      var r := TrimStart(t);
      var k := |t| - |r|;
      assert t[k..] == s[k + 1..];
      var dropped := s[..k + 1];
      forall i | 0 <= i < |dropped|
        ensures IsSpace(dropped[i])
      {
        if i > 0 {
          assert dropped[i] == t[..k][i - 1];
        }
      }
    }
  }

  /** The trailing trim is a prefix whose dropped part is blank and which does
      not end with a space. */
  lemma {:induction false} TrimEndShape(s: string)
    ensures var r := TrimEnd(s);
      && |r| <= |s| && r == s[..|r|]
      && Blank(s[|r|..])
      && (r != [] ==> !IsSpace(r[|r| - 1]))
    decreases |s|
  {
    if s != [] && IsSpace(s[|s| - 1]) {
      var init := s[..|s| - 1];
      TrimEndShape(init);
      var r := TrimEnd(init);
      assert init[..|r|] == s[..|r|];
      assert s[|r|..] == init[|r|..] + [s[|s| - 1]];
    }
  }

  /** `s.trim()`: neither end of a non-empty result is a space, and the result is
      empty exactly when the input is blank. */
  function Trim(s: string): (r: string)
    ensures |r| <= |s|
    ensures r != [] ==> !IsSpace(r[0]) && !IsSpace(r[|r| - 1])
    ensures r == [] <==> Blank(s)
  {
    var t := TrimStart(s);
    TrimStartShape(s);
    var r := TrimEnd(t);
    TrimEndShape(t);
    assert r != [] ==> r[0] == t[0];
    assert r == [] ==> Blank(s) by {
      if r == [] {
        assert s == s[..|s| - |t|] + t;
      }
    }
    r
  }

  /** A string with no space at either end is its own trim. */
  lemma {:induction false} TrimOfTrimmed(s: string)
    requires s != [] ==> !IsSpace(s[0]) && !IsSpace(s[|s| - 1])
    ensures Trim(s) == s
  {
  }

  /** `trim` is idempotent. */
  lemma TrimIdempotent(s: string)
    ensures Trim(Trim(s)) == Trim(s)
  {
    TrimOfTrimmed(Trim(s));
  }

  lemma {:induction false} TrimStartPadding(p: string, s: string)
    requires Blank(p)
    ensures TrimStart(p + s) == TrimStart(s)
    decreases |p|
  {
    if p == [] {
      assert p + s == s;
    } else {
      assert (p + s)[0] == p[0] && (p + s)[1..] == p[1..] + s;
      TrimStartPadding(p[1..], s);
    }
  }

  lemma {:induction false} TrimEndPadding(s: string, q: string)
    requires Blank(q)
    ensures TrimEnd(s + q) == TrimEnd(s)
    decreases |q|
  {
    if q == [] {
      assert s + q == s;
    } else {
      assert (s + q)[|s + q| - 1] == q[|q| - 1] && (s + q)[..|s + q| - 1] == s + q[..|q| - 1];
      TrimEndPadding(s, q[..|q| - 1]);
    }
  }

  /** A trailing blank part of `s` is also a trailing blank part of its leading trim. */
  lemma {:induction false} TrimStartOfPadded(s: string, q: string)
    requires Blank(q)
    ensures TrimStart(s + q) == TrimStart(s) + q || (TrimStart(s) == [] && TrimStart(s + q) == [])
    decreases |s|
  {
    if s == [] {
      TrimStartPadding(q, []);
      assert q + [] == q;
      assert [] + q == q;
    } else if IsSpace(s[0]) {
      assert (s + q)[1..] == s[1..] + q;
      TrimStartOfPadded(s[1..], q);
    } else {
      assert (s + q)[0] == s[0];
    }
  }

  /** Blank characters around `s` do not change its trim: `("  " + s + "\n").trim() == s.trim()`. */
  lemma TrimPadding(p: string, s: string, q: string)
    requires Blank(p) && Blank(q)
    ensures Trim(p + s + q) == Trim(s)
  {
    assert p + s + q == p + (s + q);
    TrimStartPadding(p, s + q);
    TrimStartOfPadded(s, q);
    if TrimStart(s + q) == TrimStart(s) + q {
      TrimEndPadding(TrimStart(s), q);
    } else {
      assert TrimEnd(TrimStart(s + q)) == [];
    }
  }
}
