/**
 * The two-step rewrite that `Game_System.getTextBase` applies to a registered
 * text: every backslash becomes ESC (the engine's control-code prefix), then
 * every ESC ESC pair, scanning left to right, becomes one literal backslash.
 */
module TextEscape {

  /** The escape character `\x1b` that prefixes converted control codes. */
  const ESC: char := '\U{1B}'
  const BACKSLASH: char := '\\'

  /** `text.replace(/\\/g, "\x1b")` */
  function EscapeBackslashes(s: string): (r: string)
    ensures |r| == |s|
    ensures forall i :: 0 <= i < |s| ==> r[i] == (if s[i] == BACKSLASH then ESC else s[i])
  {
    if s == [] then [] else [if s[0] == BACKSLASH then ESC else s[0]] + EscapeBackslashes(s[1..])
  }

  /** `text.replace(/\x1b\x1b/g, "\\")`: non-overlapping pairs, leftmost first. */
  function CollapseEscPairs(s: string): (r: string)
    ensures |r| <= |s|
    decreases |s|
  {
    if |s| >= 2 && s[0] == ESC && s[1] == ESC then [BACKSLASH] + CollapseEscPairs(s[2..])
    else if s == [] then []
    else [s[0]] + CollapseEscPairs(s[1..])
  }

  /** The rewrite of `getTextBase`; it never lengthens the text. */
  function RewriteEscapes(s: string): (r: string)
    ensures |r| <= |s|
  {
    CollapseEscPairs(EscapeBackslashes(s))
  }

  predicate NoAdjacentEsc(s: string)
  {
    forall i :: 0 <= i < |s| - 1 ==> !(s[i] == ESC && s[i + 1] == ESC)
  }

  /** `n` copies of `c`. */
  function Repeat(c: char, n: nat): (r: string)
    ensures |r| == n
  {
    if n == 0 then [] else [c] + Repeat(c, n - 1)
  }

  /** Each backslash written twice: the way a literal backslash is entered in a registered text. */
  function DoubleBackslashes(t: string): (r: string)
  {
    if t == [] then [] else (if t[0] == BACKSLASH then [BACKSLASH, BACKSLASH] else [t[0]]) + DoubleBackslashes(t[1..])
  }

  lemma EscapeBackslashesAppend(a: string, b: string)
    ensures EscapeBackslashes(a + b) == EscapeBackslashes(a) + EscapeBackslashes(b)
  {
    assert |EscapeBackslashes(a + b)| == |EscapeBackslashes(a) + EscapeBackslashes(b)|;
    forall i | 0 <= i < |a + b|
      ensures EscapeBackslashes(a + b)[i] == (EscapeBackslashes(a) + EscapeBackslashes(b))[i]
    {
      if i >= |a| {
        assert (a + b)[i] == b[i - |a|];
      }
    }
  }

  /** The collapse step leaves no ESC ESC pair, and its output starts with ESC only when a lone ESC starts its input. */
  lemma {:induction false} CollapseLeavesNoEscPair(s: string)
    ensures NoAdjacentEsc(CollapseEscPairs(s))
    ensures |CollapseEscPairs(s)| > 0 && CollapseEscPairs(s)[0] == ESC ==>
      s[0] == ESC && (|s| == 1 || s[1] != ESC)
    decreases |s|
  {
    if |s| >= 2 && s[0] == ESC && s[1] == ESC {
      CollapseLeavesNoEscPair(s[2..]);
      var r := CollapseEscPairs(s);
      assert r == [BACKSLASH] + CollapseEscPairs(s[2..]);
      forall i | 0 <= i < |r| - 1 ensures !(r[i] == ESC && r[i + 1] == ESC) {
        if i > 0 {
          assert r[i] == CollapseEscPairs(s[2..])[i - 1];
          assert r[i + 1] == CollapseEscPairs(s[2..])[i];
        }
      }
    } else if s != [] {
      CollapseLeavesNoEscPair(s[1..]);
      var r := CollapseEscPairs(s);
      var tail := CollapseEscPairs(s[1..]);
      assert r == [s[0]] + tail;
      forall i | 0 <= i < |r| - 1 ensures !(r[i] == ESC && r[i + 1] == ESC) {
        if i > 0 {
          assert r[i] == tail[i - 1] && r[i + 1] == tail[i];
        } else if s[0] == ESC {
          assert |s| == 1 || s[1] != ESC;
          assert r[1] == tail[0];
        }
      }
    }
  }

  /** The rewritten text never holds two adjacent ESC characters. */
  lemma RewriteLeavesNoEscPair(s: string)
    ensures NoAdjacentEsc(RewriteEscapes(s))
  {
    CollapseLeavesNoEscPair(EscapeBackslashes(s));
  }

  lemma CollapsePair(t: string)
    ensures CollapseEscPairs([ESC, ESC] + t) == [BACKSLASH] + CollapseEscPairs(t)
  {
    assert ([ESC, ESC] + t)[2..] == t;
  }

  lemma CollapseLoneEsc(t: string)
    requires t == [] || t[0] != ESC
    ensures CollapseEscPairs([ESC] + t) == [ESC] + CollapseEscPairs(t)
  {
    assert ([ESC] + t)[1..] == t;
  }

  /** The ESC a run of `k` backslashes leaves behind: one when `k` is odd. */
  function LoneEsc(k: nat): (r: string)
  {
    if k % 2 == 1 then [ESC] else []
  }

  /** A run of k ESC characters collapses to k/2 backslashes, plus one ESC when k is odd. */
  lemma {:induction false} CollapseEscRun(k: nat, rest: string)
    requires rest == [] || rest[0] != ESC
    ensures CollapseEscPairs(Repeat(ESC, k) + rest)
      == Repeat(BACKSLASH, k / 2) + LoneEsc(k) + CollapseEscPairs(rest)
    decreases k, 1
  {
    if k == 0 {
      assert Repeat(ESC, 0) + rest == rest;
      assert Repeat(BACKSLASH, 0) + LoneEsc(0) == [];
    } else if k == 1 {
      assert Repeat(ESC, 1) + rest == [ESC] + rest;
      CollapseLoneEsc(rest);
      assert Repeat(BACKSLASH, 0) + LoneEsc(1) == [ESC];
    } else {
      CollapseEscRunStep(k, rest);
    }
  }

  lemma {:induction false} CollapseEscRunStep(k: nat, rest: string)
    requires k >= 2
    requires rest == [] || rest[0] != ESC
    ensures CollapseEscPairs(Repeat(ESC, k) + rest)
      == Repeat(BACKSLASH, k / 2) + LoneEsc(k) + CollapseEscPairs(rest)
    decreases k, 0
  {
    var c := CollapseEscPairs(rest);
    var inner := Repeat(ESC, k - 2) + rest;
    var front := Repeat(BACKSLASH, (k - 2) / 2);
    calc {
      CollapseEscPairs(Repeat(ESC, k) + rest);
      { RepeatTwoMore(ESC, k - 2, rest); }
      CollapseEscPairs([ESC, ESC] + inner);
      { CollapsePair(inner); }
      [BACKSLASH] + CollapseEscPairs(inner);
      { CollapseEscRun(k - 2, rest); }
      [BACKSLASH] + (front + LoneEsc(k - 2) + c);
      { Reassociate([BACKSLASH], front, LoneEsc(k - 2), c); }
      ([BACKSLASH] + front) + LoneEsc(k - 2) + c;
      { assert LoneEsc(k - 2) == LoneEsc(k); RepeatOneMore(BACKSLASH, (k - 2) / 2); }
      Repeat(BACKSLASH, k / 2) + LoneEsc(k) + c;
    }
  }

  lemma RepeatTwoMore(c: char, n: nat, rest: string)
    ensures Repeat(c, n + 2) + rest == [c, c] + (Repeat(c, n) + rest)
  {
    assert Repeat(c, n + 2) == [c] + ([c] + Repeat(c, n));
  }

  lemma RepeatOneMore(c: char, n: nat)
    ensures Repeat(c, n + 1) == [c] + Repeat(c, n)
  {
  }

  lemma Reassociate(a: string, b: string, d: string, e: string)
    ensures a + (b + d + e) == (a + b) + d + e
  {
  }

  /**
   * A run of k backslashes (followed by something that is neither a backslash
   * nor ESC) becomes k/2 backslashes, plus one ESC when k is odd.
   */
  lemma BackslashRun(k: nat, rest: string)
    requires rest == [] || (rest[0] != BACKSLASH && rest[0] != ESC)
    ensures RewriteEscapes(Repeat(BACKSLASH, k) + rest)
      == Repeat(BACKSLASH, k / 2) + LoneEsc(k) + RewriteEscapes(rest)
  {
    EscapeBackslashesAppend(Repeat(BACKSLASH, k), rest);
    EscapeBackslashRun(k);
    var escapedRest := EscapeBackslashes(rest);
    assert escapedRest == [] || escapedRest[0] != ESC;
    CollapseEscRun(k, escapedRest);
  }

  lemma {:induction false} EscapeBackslashRun(k: nat)
    ensures EscapeBackslashes(Repeat(BACKSLASH, k)) == Repeat(ESC, k)
  {
    if k > 0 {
      EscapeBackslashRun(k - 1);
      assert Repeat(BACKSLASH, k)[1..] == Repeat(BACKSLASH, k - 1);
    }
  }

  /** Text holding neither a backslash nor ESC comes back unchanged. */
  lemma {:induction false} RewriteLeavesPlainText(s: string)
    requires forall i :: 0 <= i < |s| ==> s[i] != BACKSLASH && s[i] != ESC
    ensures RewriteEscapes(s) == s
  {
    assert EscapeBackslashes(s) == s;
    CollapseIdentity(s);
  }

  lemma {:induction false} CollapseIdentity(s: string)
    requires forall i :: 0 <= i < |s| ==> s[i] != ESC
    ensures CollapseEscPairs(s) == s
    decreases |s|
  {
    if s != [] {
      CollapseIdentity(s[1..]);
    }
  }

  /** A doubled backslash stands for one literal backslash: the rewrite undoes the doubling. */
  lemma {:induction false} RewriteUndoesDoubling(t: string)
    requires forall i :: 0 <= i < |t| ==> t[i] != ESC
    ensures RewriteEscapes(DoubleBackslashes(t)) == t
    decreases |t|
  {
    if t != [] {
      var head := if t[0] == BACKSLASH then [BACKSLASH, BACKSLASH] else [t[0]];
      var tail := DoubleBackslashes(t[1..]);
      assert DoubleBackslashes(t) == head + tail;
      EscapeBackslashesAppend(head, tail);
      RewriteUndoesDoubling(t[1..]);
      var s := EscapeBackslashes(head) + EscapeBackslashes(tail);
      if t[0] == BACKSLASH {
        assert EscapeBackslashes(head) == [ESC, ESC];
        assert s[2..] == EscapeBackslashes(tail);
      } else {
        assert EscapeBackslashes(head) == [t[0]];
        assert s[1..] == EscapeBackslashes(tail);
      }
      assert t == [t[0]] + t[1..];
    }
  }
}
