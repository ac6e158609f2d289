/**
 * The `\x1bTX[id]` control code of TextScriptBase.js: after the base escape
 * conversion, every occurrence is replaced, in one left-to-right pass, by the
 * text registered under `id`.
 */
module TextMacro {
  import opened Common
  import opened TextEscape
  import opened TextBase

  /**
   * Where a TX code looks its text up: the `Game_System` override store when the
   * game system exists, the configured list alone when it does not.
   */
  datatype TextSource = SystemStore(store: map<string, string>) | NoGameSystem

  /** `$gameSystem ? $gameSystem.getTextBase(id) : findTextParam(param.TextList, id)` */
  function LookupTx(src: TextSource, list: seq<TextItem>, id: string): (r: Result<string, TextError>)
    ensures r.Err? <==>
      !(src.SystemStore? && id in src.store && src.store[id] != "") && FindTextParam(list, id).Err?
    ensures r.Err? ==> r.error == TextNotFound(id)
    ensures src.NoGameSystem? && r.Ok? ==> r == FindTextParam(list, id)
  {
    match src
    case SystemStore(store) => TextBaseLookup(store, list, id)
    case NoGameSystem => FindTextParam(list, id)
  }

  /**
   * Without a game system the configured text is used as written; through the
   * game system it goes through the escape rewrite, so a doubled backslash
   * comes out as one.
   */
  lemma LookupWithoutSystemSkipsRewrite(store: map<string, string>, list: seq<TextItem>, id: string, t: string)
    requires forall i :: 0 <= i < |t| ==> t[i] != ESC
    requires FindTextParam(list, id) == Ok(DoubleBackslashes(t))
    requires id !in store || store[id] == ""
    ensures LookupTx(NoGameSystem, list, id) == Ok(DoubleBackslashes(t))
    ensures LookupTx(SystemStore(store), list, id) == Ok(t)
  {
    RewriteUndoesDoubling(t);
  }

  /** The characters `.` of a regular expression does not match. */
  predicate IsLineTerminator(c: char)
  {
    c == '\n' || c == '\r' || c == '\U{2028}' || c == '\U{2029}'
  }

  /** ESC, `T` or `t`, `X` or `x`, `[`: the `gi` flags make the letters case-insensitive. */
  predicate TxHeader(s: string)
  {
    |s| >= 4 && s[0] == ESC && (s[1] == 't' || s[1] == 'T') && (s[2] == 'x' || s[2] == 'X') && s[3] == '['
  }

  /**
   * The lazy `.+?]` from position `k` on: the first `]` at or after `k` that no
   * line terminator precedes, if there is one.
   */
  function FindCloseFrom(s: string, k: nat): (r: Option<nat>)
    ensures r.Some? ==> k <= r.value < |s| && s[r.value] == ']'
    ensures r.Some? ==> forall m :: k <= m < r.value ==> s[m] != ']' && !IsLineTerminator(s[m])
    ensures r.None? ==> forall j :: k <= j < |s| && s[j] == ']' ==> exists m :: k <= m < j && IsLineTerminator(s[m])
    decreases |s| - k
  {
    if k >= |s| then None
    else if IsLineTerminator(s[k]) then
      assert forall j :: k <= j < |s| && s[j] == ']' ==> k < j && IsLineTerminator(s[k]);
      None
    else if s[k] == ']' then Some(k)
    else FindCloseFrom(s, k + 1)
  }

  /**
   * The index of the `]` that closes a TX code starting at the front of `s`, if
   * one does: the captured id `s[4..close]` is non-empty, holds no line
   * terminator, and holds `]` at most as its first character.
   */
  function TxCodeAt(s: string): (close: Option<nat>)
    ensures close.Some? ==> TxHeader(s) && 5 <= close.value < |s| && s[close.value] == ']'
    ensures close.Some? ==> forall m :: 4 <= m < close.value ==> !IsLineTerminator(s[m])
    ensures close.Some? ==> forall m :: 5 <= m < close.value ==> s[m] != ']'
  {
    if TxHeader(s) && |s| > 4 && !IsLineTerminator(s[4]) then FindCloseFrom(s, 5) else None
  }

  /** `p` in front of a successful result. */
  function Prepend(p: string, r: Result<string, TextError>): (q: Result<string, TextError>)
  {
    if r.Ok? then Ok(p + r.value) else r
  }

  /** Two results joined; the left error, raised first, wins. */
  function Concat(a: Result<string, TextError>, b: Result<string, TextError>): (r: Result<string, TextError>)
  {
    if a.Err? then a
    else if b.Err? then b
    else Ok(a.value + b.value)
  }

  /**
   * `text.replace(/\x1bTX\[(.+?)]/gi, ...)`: scanning left to right, each code is
   * replaced by the text looked up for its id and the scan resumes after the
   * code, so the substituted text is never rescanned. A lookup that fails
   * (`Text [id] is not found.`) aborts the conversion with that error.
   */
  function ExpandTx(s: string, src: TextSource, list: seq<TextItem>): (r: Result<string, TextError>)
    ensures r.Err? ==> exists i :: 0 <= i < |s| && TxCodeAt(s[i..]).Some?
    ensures r.Err? ==> exists id :: r.error == TextNotFound(id) && LookupTx(src, list, id).Err?
    decreases |s|
  {
    if s == [] then Ok([])
    else
      var close := TxCodeAt(s);
      if close.Some? then
        assert s[0..] == s;
        Concat(LookupTx(src, list, s[4..close.value]), ExpandTx(s[close.value + 1..], src, list))
      else
        var rest := ExpandTx(s[1..], src, list);
        assert rest.Err? ==> exists i :: 0 <= i < |s| && TxCodeAt(s[i..]).Some? by {
          if rest.Err? {
            var i :| 0 <= i < |s[1..]| && TxCodeAt(s[1..][i..]).Some?;
            assert s[1..][i..] == s[i + 1..];
          }
        }
        Prepend([s[0]], rest)
  }

  /** No TX code begins anywhere in `s`. */
  predicate NoTxCode(s: string)
  {
    forall i :: 0 <= i < |s| ==> TxCodeAt(s[i..]).None?
  }

  /** Text without any TX code comes back unchanged. */
  lemma {:induction false} ExpandWithoutCode(s: string, src: TextSource, list: seq<TextItem>)
    requires NoTxCode(s)
    ensures ExpandTx(s, src, list) == Ok(s)
    decreases |s|
  {
    if s != [] {
      assert s[0..] == s;
      forall i | 0 <= i < |s[1..]| ensures TxCodeAt(s[1..][i..]).None? {
        assert s[1..][i..] == s[i + 1..];
      }
      ExpandWithoutCode(s[1..], src, list);
      assert [s[0]] + s[1..] == s;
    }
  }

  /** Text holding no ESC at all holds no TX code. */
  lemma NoEscNoTxCode(s: string)
    requires forall i :: 0 <= i < |s| ==> s[i] != ESC
    ensures NoTxCode(s)
  {
    forall i | 0 <= i < |s| ensures TxCodeAt(s[i..]).None? {
      assert s[i..][0] == s[i];
    }
  }

  /** Text holding no ESC at all comes back unchanged. */
  lemma ExpandWithoutEsc(s: string, src: TextSource, list: seq<TextItem>)
    requires forall i :: 0 <= i < |s| ==> s[i] != ESC
    ensures ExpandTx(s, src, list) == Ok(s)
  {
    NoEscNoTxCode(s);
    ExpandWithoutCode(s, src, list);
  }

  /** A front character at which no TX code begins is copied through. */
  lemma ExpandPlainFront(s: string, src: TextSource, list: seq<TextItem>)
    requires s != [] && TxCodeAt(s).None?
    ensures ExpandTx(s, src, list) == Prepend([s[0]], ExpandTx(s[1..], src, list))
  {
  }

  lemma PrependTwice(a: string, b: string, r: Result<string, TextError>)
    ensures Prepend(a, Prepend(b, r)) == Prepend(a + b, r)
  {
    if r.Ok? {
      assert a + (b + r.value) == (a + b) + r.value;
    }
  }

  /**
   * A prefix in which no TX code begins (it may hold other control codes) is
   * copied through, and the expansion continues after it.
   */
  lemma {:induction false} ExpandPlainPrefix(p: string, rest: string, src: TextSource, list: seq<TextItem>)
    requires forall i :: 0 <= i < |p| ==> TxCodeAt((p + rest)[i..]).None?
    ensures ExpandTx(p + rest, src, list) == Prepend(p, ExpandTx(rest, src, list))
    decreases |p|
  {
    if p == [] {
      assert p + rest == rest;
      var e := ExpandTx(rest, src, list);
      if e.Ok? {
        assert p + e.value == e.value;
      }
    } else {
      var s := p + rest;
      assert s[0..] == s;
      assert s[0] == p[0] && s[1..] == p[1..] + rest;
      forall i | 0 <= i < |p[1..]| ensures TxCodeAt((p[1..] + rest)[i..]).None? {
        assert (p[1..] + rest)[i..] == s[i + 1..];
      }
      calc {
        ExpandTx(s, src, list);
        { ExpandPlainFront(s, src, list); }
        Prepend([p[0]], ExpandTx(p[1..] + rest, src, list));
        { ExpandPlainPrefix(p[1..], rest, src, list); }
        Prepend([p[0]], Prepend(p[1..], ExpandTx(rest, src, list)));
        { PrependTwice([p[0]], p[1..], ExpandTx(rest, src, list)); assert [p[0]] + p[1..] == p; }
        Prepend(p, ExpandTx(rest, src, list));
      }
    }
  }

  /** A TX code with header letters `t`, `x` and captured id `id`. */
  function TxCode(t: char, x: char, id: string): (r: string)
  {
    [ESC, t, x, '['] + id + [']']
  }

  /** An id the lazy capture takes whole: non-empty, no line terminator, `]` at most first. */
  predicate CapturableId(id: string)
  {
    && id != []
    && (forall m :: 0 <= m < |id| ==> !IsLineTerminator(id[m]))
    && (forall m :: 1 <= m < |id| ==> id[m] != ']')
  }

  /** A TX code at the front is matched up to its own `]` and its id is looked up. */
  lemma CodeCloses(t: char, x: char, id: string, rest: string)
    requires t == 't' || t == 'T'
    requires x == 'x' || x == 'X'
    requires CapturableId(id)
    ensures TxCodeAt(TxCode(t, x, id) + rest) == Some(4 + |id|)
  {
    var s := TxCode(t, x, id) + rest;
    var j := 4 + |id|;
    assert s[..4] == [ESC, t, x, '['];
    assert s[j] == ']';
    assert forall m :: 4 <= m < j ==> s[m] == id[m - 4];
    assert TxHeader(s) && !IsLineTerminator(s[4]);
    var close := FindCloseFrom(s, 5);
    if close.Some? {
      assert close.value >= j;
    }
  }

  /** A TX code at the front is replaced by its lookup, and expansion resumes right after it. */
  lemma ExpandAtCode(t: char, x: char, id: string, rest: string, src: TextSource, list: seq<TextItem>)
    requires t == 't' || t == 'T'
    requires x == 'x' || x == 'X'
    requires CapturableId(id)
    ensures ExpandTx(TxCode(t, x, id) + rest, src, list)
      == Concat(LookupTx(src, list, id), ExpandTx(rest, src, list))
  {
    var s := TxCode(t, x, id) + rest;
    CodeCloses(t, x, id, rest);
    assert s[4..4 + |id|] == id;
    assert s[4 + |id| + 1..] == rest;
  }

  /**
   * One code between text holding no other TX code (other control codes are
   * allowed) is replaced by whatever its lookup returns, even when that text
   * itself holds a TX code: the pass does not rescan. A failed lookup fails the
   * whole conversion.
   */
  lemma ExpandSingleCode(p: string, t: char, x: char, id: string, q: string, src: TextSource, list: seq<TextItem>)
    requires t == 't' || t == 'T'
    requires x == 'x' || x == 'X'
    requires CapturableId(id)
    requires forall i :: 0 <= i < |p| ==> TxCodeAt((p + TxCode(t, x, id) + q)[i..]).None?
    requires NoTxCode(q)
    ensures LookupTx(src, list, id).Ok? ==>
      ExpandTx(p + TxCode(t, x, id) + q, src, list) == Ok(p + LookupTx(src, list, id).value + q)
    ensures LookupTx(src, list, id).Err? ==>
      ExpandTx(p + TxCode(t, x, id) + q, src, list) == LookupTx(src, list, id)
  {
    var code := TxCode(t, x, id);
    var found := LookupTx(src, list, id);
    assert p + code + q == p + (code + q);
    ExpandPlainPrefix(p, code + q, src, list);
    ExpandAtCode(t, x, id, q, src, list);
    ExpandWithoutCode(q, src, list);
    assert ExpandTx(code + q, src, list) == Concat(found, Ok(q));
    if found.Ok? {
      assert p + (found.value + q) == p + found.value + q;
    }
  }

  /** The substituted text may itself be a TX code; it is left as it is. */
  lemma ExpansionIsNotRescanned(id: string, inner: string, src: TextSource, list: seq<TextItem>)
    requires CapturableId(id)
    requires LookupTx(src, list, id) == Ok(TxCode('T', 'X', inner))
    ensures ExpandTx(TxCode('T', 'X', id), src, list) == Ok(TxCode('T', 'X', inner))
  {
    ExpandSingleCode([], 'T', 'X', id, [], src, list);
    assert [] + TxCode('T', 'X', id) + [] == TxCode('T', 'X', id);
    assert [] + TxCode('T', 'X', inner) + [] == TxCode('T', 'X', inner);
  }

  /**
   * Another control code left by the base conversion (here the colour code
   * `ESC C[2]`) is copied through, and the TX code after it is still replaced.
   */
  lemma ExpandAfterColourCode(id: string, src: TextSource, list: seq<TextItem>)
    requires CapturableId(id)
    requires LookupTx(src, list, id).Ok?
    ensures ExpandTx([ESC, 'C', '[', '2', ']'] + TxCode('T', 'X', id), src, list)
      == Ok([ESC, 'C', '[', '2', ']'] + LookupTx(src, list, id).value)
  {
    var p := [ESC, 'C', '[', '2', ']'];
    var s := p + TxCode('T', 'X', id) + [];
    forall i | 0 <= i < |p| ensures TxCodeAt(s[i..]).None? {
      assert s[i..][0] == p[i] && s[i..][1] == s[i + 1];
    }
    ExpandSingleCode(p, 'T', 'X', id, [], src, list);
    assert p + TxCode('T', 'X', id) + [] == p + TxCode('T', 'X', id);
    assert p + LookupTx(src, list, id).value + [] == p + LookupTx(src, list, id).value;
  }
}
