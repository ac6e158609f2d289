/**
 * The keyed text store of TextScriptBase.js: lookup in the configured text list
 * (by identifier, then by 1-based index), overrides saved in `Game_System`,
 * and the escape rewrite applied to what `getTextBase` returns.
 */
module TextBase {
  import opened Common
  import opened TextEscape

  /** One entry of the `TextList` parameter; `text` is `None` when the entry has no `Text`. */
  datatype TextItem = TextItem(id: string, text: Option<string>)

  /** `Text [id] is not found.`, thrown through `PluginManagerEx.throwError`. */
  datatype TextError = TextNotFound(id: string)

  /** `item.Text || ''` */
  function ItemText(item: TextItem): (r: string)
  {
    if item.text.Some? then item.text.value else ""
  }

  /** The index of the first item whose identifier is `id` (`list.filter(item => item.Id === id)[0]`). */
  function FirstWithId(list: seq<TextItem>, id: string): (r: Option<nat>)
    ensures r.Some? ==> r.value < |list| && list[r.value].id == id
    ensures r.Some? ==> forall k :: 0 <= k < r.value ==> list[k].id != id
    ensures r.None? ==> forall k :: 0 <= k < |list| ==> list[k].id != id
  {
    if list == [] then None
    else if list[0].id == id then Some(0)
    else
      var rest := FirstWithId(list[1..], id);
      if rest.Some? then Some(rest.value + 1) else None
  }

  // ---------------------------------------------------------------------------
  // `parseInt(s)` with no radix, as ECMAScript defines it, for the ids of the
  // integral values a text list can index.

  /** StrWhiteSpaceChar of ECMAScript: white space and line terminators. */
  predicate IsJsWhiteSpace(c: char)
  {
    c == '\t' || c == '\U{B}' || c == '\U{C}' || c == ' ' || c == '\U{A0}' || c == '\U{FEFF}'
    || c == '\U{1680}' || ('\U{2000}' <= c <= '\U{200A}') || c == '\U{202F}' || c == '\U{205F}'
    || c == '\U{3000}' || c == '\n' || c == '\r' || c == '\U{2028}' || c == '\U{2029}'
  }

  /** Leading white space removed. */
  function TrimStart(s: string): (r: string)
    ensures |r| <= |s| && r == s[|s| - |r|..]
    ensures r == [] || !IsJsWhiteSpace(r[0])
  {
    if s != [] && IsJsWhiteSpace(s[0]) then TrimStart(s[1..]) else s
  }

  /** The value of a digit in base 10 or 16, if `c` is one. */
  function DigitValue(c: char, radix: nat): (d: Option<nat>)
    requires radix == 10 || radix == 16
    ensures d.Some? ==> d.value < radix
  {
    if '0' <= c <= '9' then Some(c as nat - '0' as nat)
    else if radix == 16 && 'a' <= c <= 'f' then Some(c as nat - 'a' as nat + 10)
    else if radix == 16 && 'A' <= c <= 'F' then Some(c as nat - 'A' as nat + 10)
    else None
  }

  predicate AllDigits(s: string, radix: nat)
    requires radix == 10 || radix == 16
  {
    forall i :: 0 <= i < |s| ==> DigitValue(s[i], radix).Some?
  }

  /** The length of the longest prefix made of digits. */
  function DigitPrefixLength(s: string, radix: nat): (n: nat)
    requires radix == 10 || radix == 16
    ensures n <= |s| && AllDigits(s[..n], radix)
    ensures n < |s| ==> DigitValue(s[n], radix).None?
  {
    if s == [] || DigitValue(s[0], radix).None? then 0
    else
      var n := 1 + DigitPrefixLength(s[1..], radix);
      assert forall i :: 1 <= i < n ==> s[..n][i] == s[1..][..n - 1][i - 1];
      n
  }

  /** The number a digit string denotes, most significant digit first. */
  function DigitsValue(s: string, radix: nat): (r: nat)
    requires radix == 10 || radix == 16
    requires AllDigits(s, radix)
  {
    if s == [] then 0
    else DigitsValue(s[..|s| - 1], radix) * radix + DigitValue(s[|s| - 1], radix).value
  }

  /** The digits after the sign: a `0x`/`0X` prefix selects base 16; `None` when no digit follows. */
  function ParseUnsigned(u: string): (r: Option<nat>)
    ensures r.Some? <==>
      if |u| >= 2 && u[0] == '0' && (u[1] == 'x' || u[1] == 'X')
      then |u| > 2 && DigitValue(u[2], 16).Some?
      else u != [] && '0' <= u[0] <= '9'
  {
    var hex := |u| >= 2 && u[0] == '0' && (u[1] == 'x' || u[1] == 'X');
    var radix := if hex then 16 else 10;
    var digits := if hex then u[2..] else u;
    var n := DigitPrefixLength(digits, radix);
    if n == 0 then None else Some(DigitsValue(digits[..n], radix))
  }

  /** `parseInt(s)`: leading white space skipped, then an optional sign; `None` stands for NaN. */
  function ParseInt(s: string): (r: Option<int>)
    ensures r.Some? ==> TrimStart(s) != []
    ensures r.Some? && r.value < 0 ==> TrimStart(s)[0] == '-'
    ensures TrimStart(s) != [] && '0' <= TrimStart(s)[0] <= '9' ==> r == ParseUnsigned(TrimStart(s))
  {
    var t := TrimStart(s);
    var negative := t != [] && t[0] == '-';
    var u := if t != [] && (t[0] == '-' || t[0] == '+') then t[1..] else t;
    var magnitude := ParseUnsigned(u);
    if magnitude.None? then None
    else if negative then Some(0 - magnitude.value)
    else Some(magnitude.value)
  }

  /** `parseInt` yields a number only from text holding a decimal digit, and a negative one only from text holding `-`. */
  lemma ParseIntNeedsDigit(s: string)
    ensures ParseInt(s).Some? ==> exists i :: 0 <= i < |s| && '0' <= s[i] <= '9'
    ensures ParseInt(s).Some? && ParseInt(s).value < 0 ==> exists i :: 0 <= i < |s| && s[i] == '-'
  {
    var t := TrimStart(s);
    var u := if t != [] && (t[0] == '-' || t[0] == '+') then t[1..] else t;
    if ParseInt(s).Some? {
      assert s[|s| - |u|] == u[0] && '0' <= u[0] <= '9';
      if ParseInt(s).value < 0 {
        assert s[|s| - |t|] == '-';
      }
    }
  }

  /** The decimal numeral of `n`, as `String(n)` writes it. */
  function DecimalString(n: nat): (s: string)
    ensures s != [] && AllDigits(s, 10)
    ensures s[0] == '0' ==> n == 0 && |s| == 1
  {
    var digit := ['0' + (n % 10) as char];
    if n < 10 then digit
    else
      var front := DecimalString(n / 10);
      var s := front + digit;
      assert forall i :: 0 <= i < |front| ==> s[i] == front[i];
      s
  }

  /** `parseInt` reads back the numeral of every natural number. */
  lemma {:induction false} DecimalStringValue(n: nat)
    ensures DigitsValue(DecimalString(n), 10) == n
  {
    var s := DecimalString(n);
    if n >= 10 {
      DecimalStringValue(n / 10);
      assert s[..|s| - 1] == DecimalString(n / 10);
    }
  }

  /** A string of decimal digits reads back as its value. */
  lemma ParseUnsignedDecimal(s: string)
    requires s != [] && AllDigits(s, 10)
    ensures ParseUnsigned(s) == Some(DigitsValue(s, 10))
  {
    if |s| >= 2 {
      assert DigitValue(s[1], 10).Some?;
    }
    assert s[..|s|] == s;
  }

  /** A string that starts with a digit is read without trimming and without a sign. */
  lemma ParseIntStartingWithDigit(s: string)
    requires s != [] && '0' <= s[0] <= '9'
    ensures ParseInt(s) == ParseUnsigned(s)
  {
    assert !IsJsWhiteSpace(s[0]);
    assert TrimStart(s) == s;
  }

  /** `parseInt(String(n)) === n` for every natural number `n`. */
  lemma ParseIntDecimalString(n: nat)
    ensures ParseInt(DecimalString(n)) == Some(n)
  {
    var s := DecimalString(n);
    assert DigitValue(s[0], 10).Some?;
    ParseIntStartingWithDigit(s);
    ParseUnsignedDecimal(s);
    DecimalStringValue(n);
  }

  /**
   * `findTextParam(list, id)`: the text of the first item whose identifier is
   * `id`; failing that, the item at 1-based position `parseInt(id)`; failing
   * that, an error. A found item with no text gives `''`.
   */
  function FindTextParam(list: seq<TextItem>, id: string): (r: Result<string, TextError>)
    ensures (exists k :: 0 <= k < |list| && list[k].id == id) ==>
      exists k :: 0 <= k < |list| && list[k].id == id && r == Ok(ItemText(list[k]))
                  && forall m :: 0 <= m < k ==> list[m].id != id
    ensures (forall k :: 0 <= k < |list| ==> list[k].id != id) ==>
      r == (if ParseInt(id).Some? && 1 <= ParseInt(id).value <= |list|
            then Ok(ItemText(list[ParseInt(id).value - 1]))
            else Err(TextNotFound(id)))
  {
    var byId := FirstWithId(list, id);
    if byId.Some? then
      var k := byId.value;
      assert 0 <= k < |list| && list[k].id == id && forall m :: 0 <= m < k ==> list[m].id != id;
      Ok(ItemText(list[k]))
    else
      var n := ParseInt(id);
      if n.Some? && 1 <= n.value <= |list| then Ok(ItemText(list[n.value - 1]))
      else Err(TextNotFound(id))
  }

  /** An identifier no item uses, written as the numeral k with 1 <= k <= |list|, selects the k-th item. */
  lemma FindTextParamByIndex(list: seq<TextItem>, k: nat)
    requires 1 <= k <= |list|
    requires forall m :: 0 <= m < |list| ==> list[m].id != DecimalString(k)
    ensures FindTextParam(list, DecimalString(k)) == Ok(ItemText(list[k - 1]))
  {
    ParseIntDecimalString(k);
  }

  /** An identifier that is neither used nor a numeral has no text. */
  lemma FindTextParamMissing(list: seq<TextItem>, id: string)
    requires forall m :: 0 <= m < |list| ==> list[m].id != id
    requires ParseInt(id).None?
    ensures FindTextParam(list, id).Err?
  {
  }

  /** Applies the `getTextBase` rewrite to a successful lookup. */
  function MapRewrite(r: Result<string, TextError>): (q: Result<string, TextError>)
  {
    match r
    case Ok(t) => Ok(RewriteEscapes(t))
    case Err(e) => Err(e)
  }

  /**
   * `getTextBase(id)` on the override store `store`: a non-empty override wins,
   * otherwise the configured list is consulted; the result is rewritten.
   */
  function TextBaseLookup(store: map<string, string>, list: seq<TextItem>, id: string): (r: Result<string, TextError>)
    ensures id in store && store[id] != "" ==> r == Ok(RewriteEscapes(store[id]))
    ensures !(id in store && store[id] != "") ==> r == MapRewrite(FindTextParam(list, id))
  {
    if id in store && store[id] != "" then Ok(RewriteEscapes(store[id]))
    else MapRewrite(FindTextParam(list, id))
  }

  /** After storing a non-empty text under `id`, `getTextBase(id)` returns that text, rewritten. */
  lemma SetThenGet(store: map<string, string>, list: seq<TextItem>, id: string, text: string)
    requires text != ""
    ensures TextBaseLookup(store[id := text], list, id) == Ok(RewriteEscapes(text))
  {
  }

  /** Storing an empty text makes `getTextBase(id)` fall back to the configured list. */
  lemma SetEmptyFallsBack(store: map<string, string>, list: seq<TextItem>, id: string)
    ensures TextBaseLookup(store[id := ""], list, id) == MapRewrite(FindTextParam(list, id))
  {
  }

  /** Storing under one identifier leaves the lookup of every other identifier as it was. */
  lemma SetLeavesOthers(store: map<string, string>, list: seq<TextItem>, id: string, text: string, other: string)
    requires other != id
    ensures TextBaseLookup(store[id := text], list, other) == TextBaseLookup(store, list, other)
  {
  }

  /** The `_textBase` override dictionary of `Game_System`, created on first use. */
  class GameSystem {
    var textBase: Option<map<string, string>>

    constructor ()
      ensures textBase == None
    {
      textBase := None;
    }

    /** The store, with a store not yet created read as empty. */
    function Store(): (r: map<string, string>)
      reads this
    {
      if textBase.Some? then textBase.value else map[]
    }

    /** `setTextBase(id, text)` (the `CHANGE_TEXT` plugin command). */
    method SetTextBase(id: string, text: string)
      modifies this
      ensures textBase == Some(old(Store())[id := text])
    {
      if textBase.None? {
        textBase := Some(map[]);
      }
      textBase := Some(textBase.value[id := text]);
    }

    /** `getTextBase(id)` */
    method GetTextBase(list: seq<TextItem>, id: string) returns (r: Result<string, TextError>)
      modifies this
      ensures textBase == Some(old(Store()))
      ensures r == TextBaseLookup(old(Store()), list, id)
    {
      if textBase.None? {
        textBase := Some(map[]);
      }
      r := TextBaseLookup(textBase.value, list, id);
    }
  }
}
