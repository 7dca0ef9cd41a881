/**
 * strings.TrimSpace, as XpltAI.Chat and XpltAI.Complete apply it to the content they extract.
 * Strings are sequences of Unicode code points; the whitespace set is the one
 * Go's unicode.IsSpace reports (the Unicode White_Space property).
 */
module Text {

  /** unicode.IsSpace: tab, LF, VT, FF, CR, space, NEL, NBSP and the Z-category spaces. */
  predicate IsSpace(c: char) {
    var n := c as int;
    (0x09 <= n <= 0x0D) || n == 0x20 || n == 0x85 || n == 0xA0 || n == 0x1680
    || (0x2000 <= n <= 0x200A) || n == 0x2028 || n == 0x2029 || n == 0x202F
    || n == 0x205F || n == 0x3000
  }

  predicate AllSpace(s: string) {
    forall k :: 0 <= k < |s| ==> IsSpace(s[k])
  }

  /** True when there is nothing at either end of `s` for TrimSpace to remove. */
  predicate Unpadded(s: string) {
    s == [] || (!IsSpace(s[0]) && !IsSpace(s[|s| - 1]))
  }

  /** Drops leading whitespace: the result is a suffix of `s`, and only spaces were dropped. */
  function TrimLeft(s: string): (r: string)
    ensures |r| <= |s| && r == s[|s| - |r|..]
    ensures forall k :: 0 <= k < |s| - |r| ==> IsSpace(s[k])
    ensures r == [] || !IsSpace(r[0])
  {
    if s != [] && IsSpace(s[0]) then TrimLeft(s[1..]) else s
  }

  /** Drops trailing whitespace: the result is a prefix of `s`, and only spaces were dropped. */
  function TrimRight(s: string): (r: string)
    ensures |r| <= |s| && r == s[..|r|]
    ensures forall k :: |r| <= k < |s| ==> IsSpace(s[k])
    ensures r == [] || !IsSpace(r[|r| - 1])
  {
    if s != [] && IsSpace(s[|s| - 1]) then TrimRight(s[..|s| - 1]) else s
  }

  /** strings.TrimSpace: leading and trailing whitespace removed. */
  function TrimSpace(s: string): (r: string)
    ensures |r| <= |s|
    ensures Unpadded(r)
  {
    TrimRight(TrimLeft(s))
  }

  lemma {:induction false} TrimLeftPadded(w: string, t: string)
    requires AllSpace(w)
    requires t == [] || !IsSpace(t[0])
    ensures TrimLeft(w + t) == t
  {
    if w != [] {
      assert (w + t)[1..] == w[1..] + t;
      TrimLeftPadded(w[1..], t);
    }
  }

  lemma {:induction false} TrimRightPadded(t: string, w: string)
    requires AllSpace(w)
    requires t == [] || !IsSpace(t[|t| - 1])
    ensures TrimRight(t + w) == t
  {
    if w != [] {
      var w' := w[..|w| - 1];
      assert (t + w)[..|t + w| - 1] == t + w';
      TrimRightPadded(t, w');
    } else {
      assert t + w == t;
    }
  }

  /**
   * TrimSpace is characterised by its result: surrounding a text that has no
   * whitespace at its ends with any amount of whitespace trims back to that text.
   */
  lemma TrimSpacePadded(w1: string, t: string, w2: string)
    requires AllSpace(w1) && AllSpace(w2)
    requires Unpadded(t)
    ensures TrimSpace(w1 + t + w2) == t
  {
    if t == [] {
      assert w1 + t + w2 == w1 + w2;
      assert AllSpace(w1 + w2);
      TrimLeftPadded(w1 + w2, []);
      assert w1 + w2 + [] == w1 + w2;
      assert TrimRight([]) == [];
    } else {
      assert w1 + t + w2 == w1 + (t + w2);
      TrimLeftPadded(w1, t + w2);
      TrimRightPadded(t, w2);
    }
  }

  /** Trimming twice is the same as trimming once. */
  lemma TrimSpaceIdempotent(s: string)
    ensures TrimSpace(TrimSpace(s)) == TrimSpace(s)
  {
  }
}
