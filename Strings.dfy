/**
 * The string operations the screens use: `trim` with JavaScript's whitespace set,
 * `startsWith`, `endsWith`, `includes`, and an ASCII-only `toUpperCase`.
 */
module Strings {

  /** JavaScript's WhiteSpace and LineTerminator code points, the set `trim` removes. */
  predicate IsJsWhitespace(c: char) {
    var n := c as int;
    (9 <= n <= 13) || n == 32 || n == 0xA0 || n == 0x1680 || (0x2000 <= n <= 0x200A)
    || n == 0x2028 || n == 0x2029 || n == 0x202F || n == 0x205F || n == 0x3000 || n == 0xFEFF
  }

  predicate AllWhitespace(s: string) {
    forall i :: 0 <= i < |s| ==> IsJsWhitespace(s[i])
  }

  /** `s.trimStart()`: a suffix of `s` preceded only by whitespace. */
  function TrimStart(s: string): (r: string)
    ensures |r| <= |s| && r == s[|s| - |r|..]
    ensures AllWhitespace(s[..|s| - |r|])
    ensures r == [] || !IsJsWhitespace(r[0])
  {
    if s != [] && IsJsWhitespace(s[0]) then TrimStart(s[1..]) else s
  }

  /** `s.trimEnd()`: a prefix of `s` followed only by whitespace. */
  function TrimEnd(s: string): (r: string)
    ensures |r| <= |s| && r == s[..|r|]
    ensures AllWhitespace(s[|r|..])
    ensures r == [] || !IsJsWhitespace(r[|r| - 1])
  {
    if s != [] && IsJsWhitespace(s[|s| - 1]) then
      var r := TrimEnd(s[..|s| - 1]);
      assert AllWhitespace(s[|r|..]) by {
        forall i | |r| <= i < |s| ensures IsJsWhitespace(s[i]) {
          if i < |s| - 1 { assert s[i] == s[..|s| - 1][|r|..][i - |r|]; }
        }
      }
      r
    else s
  }

  /** `s.trim()`: leading whitespace is skipped, then `trimEnd` drops the trailing run. */
  function Trim(s: string): (r: string)
    ensures |r| <= |s|
    ensures r == [] || (!IsJsWhitespace(r[0]) && !IsJsWhitespace(r[|r| - 1]))
    ensures (r == []) <==> AllWhitespace(s)
    decreases |s|
  {
    if s != [] && IsJsWhitespace(s[0]) then
      var r := Trim(s[1..]);
      assert AllWhitespace(s[1..]) ==> AllWhitespace(s) by {
        if AllWhitespace(s[1..]) {
          forall i | 0 < i < |s| ensures IsJsWhitespace(s[i]) { assert s[i] == s[1..][i - 1]; }
        }
      }
      r
    else
      var r := TrimEnd(s);
      assert r == [] ==> s[|r|..] == s;
      r
  }

  /** `trim` is `trimEnd` after `trimStart`. */
  lemma {:induction false} TrimIsBothEnds(s: string)
    ensures Trim(s) == TrimEnd(TrimStart(s))
    decreases |s|
  {
    if s != [] && IsJsWhitespace(s[0]) {
      TrimIsBothEnds(s[1..]);
    }
  }

  lemma {:induction false} AllWhitespaceAppend(a: string, b: string)
    ensures AllWhitespace(a + b) <==> AllWhitespace(a) && AllWhitespace(b)
  {
    if AllWhitespace(a) && AllWhitespace(b) {
      forall i | 0 <= i < |a + b| ensures IsJsWhitespace((a + b)[i]) {
        if i < |a| { assert (a + b)[i] == a[i]; } else { assert (a + b)[i] == b[i - |a|]; }
      }
    }
    if AllWhitespace(a + b) {
      forall i | 0 <= i < |a| ensures IsJsWhitespace(a[i]) { assert a[i] == (a + b)[i]; }
      forall i | 0 <= i < |b| ensures IsJsWhitespace(b[i]) { assert b[i] == (a + b)[|a| + i]; }
    }
  }

  /** Leading whitespace does not change `trimStart`. */
  lemma {:induction false} TrimStartSkipsWhitespace(w: string, s: string)
    requires AllWhitespace(w)
    ensures TrimStart(w + s) == TrimStart(s)
    decreases |w|
  {
    if w != [] {
      assert (w + s)[1..] == w[1..] + s;
      TrimStartSkipsWhitespace(w[1..], s);
    } else {
      assert w + s == s;
    }
  }

  /** Once a non-whitespace character is met, `trimStart` keeps everything after it. */
  lemma {:induction false} TrimStartAppend(s: string, t: string)
    requires !AllWhitespace(s)
    ensures TrimStart(s + t) == TrimStart(s) + t
    decreases |s|
  {
    assert s != [];
    if IsJsWhitespace(s[0]) {
      assert (s + t)[1..] == s[1..] + t;
      var k :| 0 <= k < |s| && !IsJsWhitespace(s[k]);
      assert k != 0 && s[1..][k - 1] == s[k];
      TrimStartAppend(s[1..], t);
    }
  }

  /** Trailing whitespace does not change `trimEnd`. */
  lemma {:induction false} TrimEndSkipsWhitespace(s: string, w: string)
    requires AllWhitespace(w)
    ensures TrimEnd(s + w) == TrimEnd(s)
    decreases |w|
  {
    if w != [] {
      var w' := w[..|w| - 1];
      assert (s + w)[..|s + w| - 1] == s + w';
      assert AllWhitespace(w') by {
        forall i | 0 <= i < |w'| ensures IsJsWhitespace(w'[i]) { assert w'[i] == w[i]; }
      }
      TrimEndSkipsWhitespace(s, w');
    } else {
      assert s + w == s;
    }
  }

  /** `trim` ignores whatever whitespace surrounds a string. */
  lemma TrimSurrounded(w1: string, s: string, w2: string)
    requires AllWhitespace(w1) && AllWhitespace(w2)
    ensures Trim(w1 + s + w2) == Trim(s)
  {
    assert w1 + s + w2 == w1 + (s + w2);
    if AllWhitespace(s) {
      BlankSurrounded(w1, s, w2);
    } else {
      VisibleSurrounded(w1, s, w2);
    }
  }

  /** A blank string stays blank with whitespace around it. */
  lemma BlankSurrounded(w1: string, s: string, w2: string)
    requires AllWhitespace(w1) && AllWhitespace(s) && AllWhitespace(w2)
    ensures Trim(w1 + (s + w2)) == [] == Trim(s)
  {
    AllWhitespaceAppend(s, w2);
    AllWhitespaceAppend(w1, s + w2);
  }

  /** With a visible character inside, `trimStart` drops `w1` and `trimEnd` drops `w2`. */
  lemma VisibleSurrounded(w1: string, s: string, w2: string)
    requires AllWhitespace(w1) && !AllWhitespace(s) && AllWhitespace(w2)
    ensures Trim(w1 + (s + w2)) == Trim(s)
  {
    TrimIsBothEnds(w1 + (s + w2));
    TrimIsBothEnds(s);
    TrimStartSkipsWhitespace(w1, s + w2);
    TrimStartAppend(s, w2);
    TrimEndSkipsWhitespace(TrimStart(s), w2);
  }

  /** `s.startsWith(p)`. */
  predicate StartsWith(s: string, p: string) {
    |p| <= |s| && s[..|p|] == p
  }

  /** `s.endsWith(p)`. */
  predicate EndsWith(s: string, p: string) {
    |p| <= |s| && s[|s| - |p|..] == p
  }

  /** `s.includes(p)`. */
  predicate Contains(s: string, p: string)
    decreases |s|
  {
    StartsWith(s, p) || (s != [] && Contains(s[1..], p))
  }

  /** `p` occurs in `s` at offset `i`. */
  predicate OccursAt(s: string, p: string, i: int) {
    0 <= i <= |s| - |p| && s[i..i + |p|] == p
  }

  /** `includes` holds exactly when `p` occurs at some offset of `s`. */
  lemma {:induction false} ContainsIffOccurs(s: string, p: string)
    ensures Contains(s, p) <==> exists i :: OccursAt(s, p, i)
    decreases |s|
  {
    if s != [] {
      ContainsIffOccurs(s[1..], p);
      if Contains(s[1..], p) {
        var i :| OccursAt(s[1..], p, i);
        assert OccursAt(s, p, i + 1);
      }
      if StartsWith(s, p) {
        assert OccursAt(s, p, 0);
      } else if exists i :: OccursAt(s, p, i) {
        var i :| OccursAt(s, p, i);
        assert i != 0;
        assert OccursAt(s[1..], p, i - 1);
      }
    } else if StartsWith(s, p) {
      assert OccursAt(s, p, 0);
    }
  }

  /** `toUpperCase` on one character, for the ASCII letters only. */
  function ToUpperAscii(c: char): (r: char)
    ensures 'a' <= c <= 'z' ==> r as int == c as int - 32
    ensures !('a' <= c <= 'z') ==> r == c
  {
    if 'a' <= c <= 'z' then (c as int - 32) as char else c
  }
}
