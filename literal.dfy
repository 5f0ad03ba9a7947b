/**
 * The text form of an event on the bus. The ingestion service renders its
 * event dictionary with Python's `str()` and the twin reads it back with
 * `ast.literal_eval`. This module gives both directions for the flat
 * dictionaries of ints and strings that travel on the bus: `DictText` is the
 * rendering and `ParseLiteral` is the reading, and `DictRoundTrip` proves that
 * reading a rendered dictionary gives back its contents.
 */
module Literal {
  import opened Wrappers

  /** A scalar field value: a Python `int` or `str`. */
  datatype Value = Int(n: int) | Str(s: string)

  /** What `ast.literal_eval` yields for a payload: a dictionary or a lone scalar. */
  datatype Literal = Dict(entries: map<Value, Value>) | Scalar(v: Value)

  // ---------------------------------------------------------------------------
  // Rendering, as `str()` does it
  // ---------------------------------------------------------------------------

  predicate IsDigit(c: char) {
    '0' <= c <= '9'
  }

  predicate AllDigits(t: string) {
    forall i :: 0 <= i < |t| ==> IsDigit(t[i])
  }

  function DigitChar(d: nat): (c: char)
    requires d < 10
    ensures IsDigit(c) && c as int - '0' as int == d
  {
    ('0' as int + d) as char
  }

  /** The decimal digits of `n`, most significant first, without leading zeros. */
  function NatText(n: nat): (t: string)
    ensures |t| >= 1 && AllDigits(t)
    ensures t[0] == '0' ==> n == 0 && |t| == 1
  {
    if n < 10 then [DigitChar(n)] else NatText(n / 10) + [DigitChar(n % 10)]
  }

  /** `str(n)` for an int: a minus sign before the digits of a negative number. */
  function IntText(n: int): string {
    if n < 0 then "-" + NatText(-n) else NatText(n)
  }

  predicate IsQuote(c: char) {
    c == '\'' || c == '"'
  }

  /** The quote `repr` picks for a string: `"` when it holds `'` but no `"`, and `'` otherwise. */
  function QuoteFor(s: string): (q: char)
    ensures IsQuote(q)
    ensures q == '"' <==> '\'' in s && '"' !in s
  {
    if '\'' in s && '"' !in s then '"' else '\''
  }

  /** The value of a hexadecimal digit, in either case. */
  function HexValue(c: char): (r: Option<nat>)
    ensures r.Some? ==> r.value < 16
  {
    if '0' <= c <= '9' then Some(c as int - '0' as int)
    else if 'a' <= c <= 'f' then Some(c as int - 'a' as int + 10)
    else if 'A' <= c <= 'F' then Some(c as int - 'A' as int + 10)
    else None
  }

  /** The lower-case hexadecimal digit `repr` writes for `d`. */
  function HexDigit(d: nat): (c: char)
    requires d < 16
    ensures HexValue(c) == Some(d)
  {
    if d < 10 then ('0' as int + d) as char else ('a' as int + d - 10) as char
  }

  /** A control character `repr` writes as `\xhh`: below U+0020 other than tab, line feed and carriage return, and U+007F. */
  predicate IsHexEscaped(c: char) {
    (c < ' ' && c != '\t' && c != '\n' && c != '\r') || c as int == 0x7F
  }

  /** One character inside a literal quoted by `q`, escaped as `repr` escapes ASCII. */
  function Escape(c: char, q: char): string {
    if c == q || c == '\\' then ['\\', c]
    else if c == '\n' then ['\\', 'n']
    else if c == '\r' then ['\\', 'r']
    else if c == '\t' then ['\\', 't']
    else if IsHexEscaped(c) then ['\\', 'x', HexDigit(c as int / 16), HexDigit(c as int % 16)]
    else [c]
  }

  function Quote(s: string, q: char): string {
    if s == [] then [] else Escape(s[0], q) + Quote(s[1..], q)
  }

  /** `repr` of a scalar: the digits of an int, or a string in the quotes `repr` picks. */
  function ValueText(v: Value): (t: string)
    ensures |t| >= 1
  {
    match v
    case Int(n) => IntText(n)
    case Str(s) => [QuoteFor(s)] + Quote(s, QuoteFor(s)) + [QuoteFor(s)]
  }

  function EntryText(e: (Value, Value)): string {
    ValueText(e.0) + ": " + ValueText(e.1)
  }

  function EntriesText(es: seq<(Value, Value)>): (t: string)
    ensures es != [] ==> |t| >= 1
  {
    if es == [] then ""
    else if |es| == 1 then EntryText(es[0])
    else EntryText(es[0]) + ", " + EntriesText(es[1..])
  }

  /** `str(d)` for a dictionary whose entries, in insertion order, are `es`. */
  function DictText(es: seq<(Value, Value)>): (t: string)
    ensures |t| >= 2 && t[0] == '{' && t[|t| - 1] == '}'
    ensures |t| == 2 <==> es == []
  {
    "{" + EntriesText(es) + "}"
  }

  /**
   * The dictionary a Python dict display with entries `es` denotes: every key
   * that occurs, bound to the value of its LAST occurrence.
   */
  function ToMap(es: seq<(Value, Value)>): map<Value, Value> {
    if es == [] then map[] else ToMap(es[..|es| - 1])[es[|es| - 1].0 := es[|es| - 1].1]
  }

  /** Appending an entry to a display rebinds its key. */
  lemma ToMapSnoc(es: seq<(Value, Value)>, e: (Value, Value))
    ensures ToMap(es + [e]) == ToMap(es)[e.0 := e.1]
  {
    assert (es + [e])[..|es|] == es;
  }

  /** Every key listed in a display is a key of the dictionary it denotes. */
  lemma {:induction false} ToMapHasKeys(es: seq<(Value, Value)>)
    ensures forall i :: 0 <= i < |es| ==> es[i].0 in ToMap(es)
  {
    if es != [] {
      var init := es[..|es| - 1];
      ToMapHasKeys(init);
      assert forall i :: 0 <= i < |es| - 1 ==> init[i] == es[i];
    }
  }

  /** The dictionary a display denotes has no key the display does not list. */
  lemma {:induction false} ToMapOnlyKeys(es: seq<(Value, Value)>)
    ensures forall k :: k in ToMap(es) ==> exists i :: 0 <= i < |es| && es[i].0 == k
  {
    if es != [] {
      var init := es[..|es| - 1];
      ToMapOnlyKeys(init);
      forall k | k in ToMap(es)
        ensures exists i :: 0 <= i < |es| && es[i].0 == k
      {
        if k != es[|es| - 1].0 {
          assert k in ToMap(init);
          var i :| 0 <= i < |init| && init[i].0 == k;
          assert es[i] == init[i];
        }
      }
    }
  }

  /** A key bound at position `i` and never listed after it keeps the value given there. */
  lemma {:induction false} ToMapLastWins(es: seq<(Value, Value)>, i: nat)
    requires i < |es| && forall j :: i < j < |es| ==> es[j].0 != es[i].0
    ensures es[i].0 in ToMap(es) && ToMap(es)[es[i].0] == es[i].1
  {
    ToMapHasKeys(es);
    if i < |es| - 1 {
      var init := es[..|es| - 1];
      assert init[i] == es[i];
      assert forall j :: i < j < |init| ==> init[j] == es[j];
      ToMapLastWins(init, i);
      ToMapHasKeys(init);
    }
  }

  // ---------------------------------------------------------------------------
  // Reading, as `ast.literal_eval` does it for this subset
  // ---------------------------------------------------------------------------

  /** The number of leading digits of `s`. */
  function DigitSpan(s: string): (k: nat)
    ensures k <= |s| && AllDigits(s[..k])
    ensures k < |s| ==> !IsDigit(s[k])
  {
    if s != [] && IsDigit(s[0]) then
      var k := 1 + DigitSpan(s[1..]);
      assert forall i :: 1 <= i < k ==> s[..k][i] == s[1..][..k - 1][i - 1];
      k
    else 0
  }

  /** The number a string of digits denotes. */
  function DigitsValue(t: string): nat
    requires AllDigits(t)
  {
    if t == [] then 0 else DigitsValue(t[..|t| - 1]) * 10 + (t[|t| - 1] as int - '0' as int)
  }

  predicate AllZeros(t: string) {
    forall i :: 0 <= i < |t| ==> t[i] == '0'
  }

  /**
   * An unsigned decimal int literal at the front of `s` and what follows it.
   * As in Python 3, a literal that starts with `0` must be all zeros: `00` is
   * 0 and `007` is an error.
   */
  function ParseNat(s: string): (r: Option<(nat, string)>)
    ensures r.Some? ==> |r.value.1| < |s|
  {
    var k := DigitSpan(s);
    if k == 0 || (s[0] == '0' && !AllZeros(s[..k])) then None
    else Some((DigitsValue(s[..k]), s[k..]))
  }

  /**
   * The character an escape sequence stands for, read after its `\`, and what
   * follows it. Only escapes that mean the same in every Python string literal
   * are read: `\\`, `\'`, `\"`, `\n`, `\r`, `\t` and `\xhh`.
   */
  function ParseEscape(s: string): (r: Option<(char, string)>)
    ensures r.Some? ==> |r.value.1| < |s|
  {
    if s == [] then None
    else if s[0] == '\\' || IsQuote(s[0]) then Some((s[0], s[1..]))
    else if s[0] == 'n' then Some(('\n', s[1..]))
    else if s[0] == 'r' then Some(('\r', s[1..]))
    else if s[0] == 't' then Some(('\t', s[1..]))
    else if s[0] == 'x' && |s| >= 3 && HexValue(s[1]).Some? && HexValue(s[2]).Some? then
      Some(((HexValue(s[1]).value * 16 + HexValue(s[2]).value) as char, s[3..]))
    else None
  }

  /**
   * One character of a string literal's body, raw or escaped, and what
   * follows it. A line feed, a carriage return or NUL may not appear raw.
   */
  function ParseChar(s: string): (r: Option<(char, string)>)
    ensures r.Some? ==> |r.value.1| < |s|
  {
    if s == [] then None
    else if s[0] == '\\' then ParseEscape(s[1..])
    else if s[0] == '\n' || s[0] == '\r' || s[0] == '\0' then None
    else Some((s[0], s[1..]))
  }

  /** The body of a string literal quoted by `q`, after its opening quote, and what follows the closing one. */
  function ParseQuoted(s: string, q: char): (r: Option<(string, string)>)
    ensures r.Some? ==> |r.value.1| < |s|
    decreases |s|
  {
    if s == [] then None
    else if s[0] == q then Some(([], s[1..]))
    else
      match ParseChar(s)
      case None => None
      case Some((c, r1)) =>
        match ParseQuoted(r1, q)
        case None => None
        case Some((t, rest)) => Some(([c] + t, rest))
  }

  /** An int or string literal at the front of `s`, and what follows it. */
  function ParseValue(s: string): (r: Option<(Value, string)>)
    ensures r.Some? ==> |r.value.1| < |s|
  {
    if |s| > 0 && IsQuote(s[0]) then
      match ParseQuoted(s[1..], s[0])
      case None => None
      case Some((t, rest)) => Some((Str(t), rest))
    else if |s| > 0 && s[0] == '-' then
      match ParseNat(s[1..])
      case None => None
      case Some((n, rest)) => Some((Int(-(n as int)), rest))
    else
      match ParseNat(s)
      case None => None
      case Some((n, rest)) => Some((Int(n), rest))
  }

  /** One `key: value` entry at the front of `s`, and what follows it. */
  function ParseEntry(s: string): (r: Option<((Value, Value), string)>)
    ensures r.Some? ==> |r.value.1| < |s|
  {
    match ParseValue(s)
    case None => None
    case Some((k, r1)) =>
      if |r1| >= 2 && r1[0] == ':' && r1[1] == ' ' then
        match ParseValue(r1[2..])
        case None => None
        case Some((v, r2)) => Some(((k, v), r2))
      else None
  }

  /** The entries of a dict display after its `{`, up to and including its `}`, and what follows. */
  function ParseEntries(s: string): (r: Option<(seq<(Value, Value)>, string)>)
    ensures r.Some? ==> |r.value.0| >= 1 && |r.value.1| < |s|
    decreases |s|
  {
    match ParseEntry(s)
    case None => None
    case Some((e, r2)) =>
      if |r2| >= 2 && r2[0] == ',' && r2[1] == ' ' then
        match ParseEntries(r2[2..])
        case None => None
        case Some((es, r3)) => Some(([e] + es, r3))
      else if |r2| >= 1 && r2[0] == '}' then Some(([e], r2[1..]))
      else None
  }

  /** `ast.literal_eval(s)` for payloads that are a flat dict or a lone scalar; None where it raises. */
  function ParseLiteral(s: string): (r: Option<Literal>)
    ensures s == [] ==> r.None?
    ensures s == "{}" ==> r == Some(Dict(map[]))
    ensures r.Some? && r.value.Dict? ==> |s| >= 2 && s[0] == '{'
    ensures |s| > 0 && s[0] == '{' ==> r.None? || r.value.Dict?
  {
    if s == "{}" then Some(Dict(map[]))
    else if |s| >= 1 && s[0] == '{' then
      match ParseEntries(s[1..])
      case None => None
      case Some((es, rest)) => if rest == [] then Some(Dict(ToMap(es))) else None
    else
      match ParseValue(s)
      case None => None
      case Some((v, rest)) => if rest == [] then Some(Scalar(v)) else None
  }

  // ---------------------------------------------------------------------------
  // Round trip
  // ---------------------------------------------------------------------------

  /** A suffix that cannot extend a number written before it. */
  predicate EndsNumber(rest: string) {
    rest == [] || !IsDigit(rest[0])
  }

  lemma {:induction false} NatTextValue(n: nat)
    ensures DigitsValue(NatText(n)) == n
  {
    if n >= 10 {
      var t := NatText(n);
      assert t[..|t| - 1] == NatText(n / 10);
      NatTextValue(n / 10);
    }
  }

  lemma {:induction false} DigitSpanOfNumber(t: string, rest: string)
    requires AllDigits(t) && EndsNumber(rest)
    ensures DigitSpan(t + rest) == |t|
  {
    if t != [] {
      assert (t + rest)[1..] == t[1..] + rest;
      DigitSpanOfNumber(t[1..], rest);
    }
  }

  lemma NatRoundTrip(n: nat, rest: string)
    requires EndsNumber(rest)
    ensures ParseNat(NatText(n) + rest) == Some((n, rest))
  {
    var t := NatText(n);
    DigitSpanOfNumber(t, rest);
    assert (t + rest)[..|t|] == t;
    assert (t + rest)[|t|..] == rest;
    NatTextValue(n);
  }

  /** Reading back one escaped character: it does not start with the closing quote and reads as itself. */
  lemma CharRoundTrip(c: char, q: char, tail: string)
    requires IsQuote(q)
    ensures |Escape(c, q) + tail| > 0 && (Escape(c, q) + tail)[0] != q
    ensures ParseChar(Escape(c, q) + tail) == Some((c, tail))
  {
    var s := Escape(c, q) + tail;
    if c == q || c == '\\' {
      assert s[1..] == [c] + tail;
    } else if c == '\n' || c == '\r' || c == '\t' {
      assert s[1..] == [s[1]] + tail;
    } else if IsHexEscaped(c) {
      HexRoundTrip(c, tail);
    } else {
      assert s[1..] == tail;
    }
  }

  /** Reading back `\xhh` for a control character. */
  lemma HexRoundTrip(c: char, tail: string)
    requires IsHexEscaped(c)
    ensures ParseEscape(['x', HexDigit(c as int / 16), HexDigit(c as int % 16)] + tail) == Some((c, tail))
  {
    var s := ['x', HexDigit(c as int / 16), HexDigit(c as int % 16)] + tail;
    assert s[3..] == tail;
    assert (c as int / 16 * 16 + c as int % 16) as char == c;
  }

  /** One step of `ParseQuoted`: a character of the body, then the rest of the body. */
  lemma ParseQuotedStep(s: string, q: char, c: char, r1: string, t: string, rest: string)
    requires s != [] && s[0] != q && ParseChar(s) == Some((c, r1)) && ParseQuoted(r1, q) == Some((t, rest))
    ensures ParseQuoted(s, q) == Some(([c] + t, rest))
  {
  }

  lemma QuoteShape(t: string, q: char, rest: string)
    requires t != []
    ensures Quote(t, q) + [q] + rest == Escape(t[0], q) + (Quote(t[1..], q) + [q] + rest)
  {
    var e, b := Escape(t[0], q), Quote(t[1..], q);
    Assoc(e, b, [q]);
    Assoc(e, b + [q], rest);
  }

  /** Every string reads back from its escaped body, in either kind of quotes, up to the closing quote. */
  lemma {:induction false} QuotedRoundTrip(t: string, q: char, rest: string)
    requires IsQuote(q)
    ensures ParseQuoted(Quote(t, q) + [q] + rest, q) == Some((t, rest))
  {
    if t == [] {
      assert Quote(t, q) + [q] + rest == [q] + rest;
      assert ([q] + rest)[1..] == rest;
    } else {
      var tail := Quote(t[1..], q) + [q] + rest;
      QuoteShape(t, q, rest);
      CharRoundTrip(t[0], q, tail);
      QuotedRoundTrip(t[1..], q, rest);
      ParseQuotedStep(Escape(t[0], q) + tail, q, t[0], tail, t[1..], rest);
      assert [t[0]] + t[1..] == t;
    }
  }

  /** One step of `ParseValue`: a leading `-` negates the number after it. */
  lemma ParseNegative(s: string, n: nat, rest: string)
    requires |s| > 0 && s[0] == '-' && ParseNat(s[1..]) == Some((n, rest))
    ensures ParseValue(s) == Some((Int(-(n as int)), rest))
  {
  }

  /** One step of `ParseValue`: a leading digit starts a number. */
  lemma ParseUnsigned(s: string, n: nat, rest: string)
    requires |s| > 0 && IsDigit(s[0]) && ParseNat(s) == Some((n, rest))
    ensures ParseValue(s) == Some((Int(n), rest))
  {
  }

  lemma NegativeRoundTrip(n: int, rest: string)
    requires n < 0 && EndsNumber(rest)
    ensures ParseValue("-" + (NatText(-n) + rest)) == Some((Int(n), rest))
  {
    NatRoundTrip(-n, rest);
    ParseNegative("-" + (NatText(-n) + rest), -n, rest);
  }

  lemma UnsignedRoundTrip(n: nat, rest: string)
    requires EndsNumber(rest)
    ensures ParseValue(NatText(n) + rest) == Some((Int(n), rest))
  {
    NatRoundTrip(n, rest);
    ParseUnsigned(NatText(n) + rest, n, rest);
  }

  lemma IntRoundTrip(n: int, rest: string)
    requires EndsNumber(rest)
    ensures ParseValue(IntText(n) + rest) == Some((Int(n), rest))
  {
    if n < 0 {
      assert IntText(n) + rest == "-" + (NatText(-n) + rest);
      NegativeRoundTrip(n, rest);
    } else {
      UnsignedRoundTrip(n, rest);
    }
  }

  /**
   * A raw line feed, carriage return or NUL at position `i` of a string
   * literal's body, with no closing quote and no escape before it, makes the
   * whole literal an error, as Python's tokenizer rejects it.
   */
  lemma {:induction false} RawBreakRejected(s: string, q: char, i: nat)
    requires IsQuote(q) && i < |s| && (s[i] == '\n' || s[i] == '\r' || s[i] == '\0')
    requires forall j :: 0 <= j < i ==> s[j] != q && s[j] != '\\'
    ensures ParseQuoted(s, q) == None
    decreases i
  {
    if i > 0 && !(s[0] == '\n' || s[0] == '\r' || s[0] == '\0') {
      assert ParseChar(s) == Some((s[0], s[1..]));
      RawBreakRejected(s[1..], q, i - 1);
    }
  }

  /** One step of `ParseValue`: a leading quote opens a string literal closed by the same quote. */
  lemma ParseString(s: string, t: string, rest: string)
    requires |s| > 0 && IsQuote(s[0]) && ParseQuoted(s[1..], s[0]) == Some((t, rest))
    ensures ParseValue(s) == Some((Str(t), rest))
  {
  }

  lemma StrShape(t: string, rest: string)
    ensures |ValueText(Str(t)) + rest| > 0 && (ValueText(Str(t)) + rest)[0] == QuoteFor(t)
    ensures (ValueText(Str(t)) + rest)[1..] == Quote(t, QuoteFor(t)) + [QuoteFor(t)] + rest
  {
    var q := QuoteFor(t);
    Assoc([q], Quote(t, q), [q]);
    Assoc([q], Quote(t, q) + [q], rest);
  }

  lemma StrRoundTrip(t: string, rest: string)
    ensures ParseValue(ValueText(Str(t)) + rest) == Some((Str(t), rest))
  {
    StrShape(t, rest);
    QuotedRoundTrip(t, QuoteFor(t), rest);
    ParseString(ValueText(Str(t)) + rest, t, rest);
  }

  lemma ValueRoundTrip(v: Value, rest: string)
    requires EndsNumber(rest)
    ensures ParseValue(ValueText(v) + rest) == Some((v, rest))
  {
    match v
    case Str(t) => StrRoundTrip(t, rest);
    case Int(n) => IntRoundTrip(n, rest);
  }

  // One step of each parser, stated over what the parsers it calls returned.

  lemma ParseEntryStep(s: string, k: Value, r1: string, v: Value, r2: string)
    requires ParseValue(s) == Some((k, r1))
    requires |r1| >= 2 && r1[0] == ':' && r1[1] == ' ' && ParseValue(r1[2..]) == Some((v, r2))
    ensures ParseEntry(s) == Some(((k, v), r2))
  {
  }

  lemma ParseLastEntry(s: string, e: (Value, Value), r2: string)
    requires ParseEntry(s) == Some((e, r2)) && |r2| >= 1 && r2[0] == '}'
    ensures ParseEntries(s) == Some(([e], r2[1..]))
  {
  }

  lemma ParseMoreEntries(s: string, e: (Value, Value), r2: string, es: seq<(Value, Value)>, r3: string)
    ensures ParseEntry(s) == Some((e, r2)) && |r2| >= 2 && r2[0] == ',' && r2[1] == ' ' &&
            ParseEntries(r2[2..]) == Some((es, r3)) ==>
              ParseEntries(s) == Some(([e] + es, r3))
  {
  }

  lemma ParseDict(s: string, es: seq<(Value, Value)>)
    ensures |s| > 2 && s[0] == '{' && ParseEntries(s[1..]) == Some((es, [])) ==>
              ParseLiteral(s) == Some(Dict(ToMap(es)))
  {
  }

  // The shapes of rendered text, one concatenation at a time.

  /** `p + x`, for a two-character punctuation `p`, drops back to `x`. */
  lemma PairShape(c0: char, c1: char, x: string)
    ensures |[c0, c1] + x| >= 2 && ([c0, c1] + x)[0] == c0 && ([c0, c1] + x)[1] == c1
    ensures ([c0, c1] + x)[2..] == x
  {
  }

  lemma CloseShape(rest: string)
    ensures |"}" + rest| >= 1 && ("}" + rest)[0] == '}' && ("}" + rest)[1..] == rest
    ensures EndsNumber("}" + rest)
  {
  }

  lemma EntryShape(e: (Value, Value), after: string)
    ensures EntryText(e) + after == ValueText(e.0) + (": " + (ValueText(e.1) + after))
  {
  }

  lemma LastEntryShape(es: seq<(Value, Value)>, rest: string)
    requires |es| == 1
    ensures EntriesText(es) + "}" + rest == EntryText(es[0]) + ("}" + rest)
  {
  }

  lemma Assoc(a: string, b: string, c: string)
    ensures a + b + c == a + (b + c)
  {
  }

  lemma MoreEntriesShape(es: seq<(Value, Value)>, rest: string)
    requires |es| > 1
    ensures EntriesText(es) + "}" + rest == EntryText(es[0]) + (", " + (EntriesText(es[1..]) + "}" + rest))
  {
    var x, t := EntryText(es[0]) + ", ", EntriesText(es[1..]);
    assert EntriesText(es) == x + t;
    Assoc(x, t, "}");
    Assoc(x, t + "}", rest);
    Assoc(EntryText(es[0]), ", ", t + "}" + rest);
  }

  lemma DictShape(es: seq<(Value, Value)>)
    requires es != []
    ensures |DictText(es)| > 2 && DictText(es)[0] == '{' && DictText(es)[1..] == EntriesText(es) + "}" + []
  {
    var t := EntriesText(es);
    Assoc("{", t, "}");
    assert t + "}" + [] == t + "}";
  }

  lemma EntryRoundTrip(e: (Value, Value), after: string)
    requires EndsNumber(after)
    ensures ParseEntry(EntryText(e) + after) == Some((e, after))
  {
    var r1 := ": " + (ValueText(e.1) + after);
    EntryShape(e, after);
    ValueRoundTrip(e.0, r1);
    PairShape(':', ' ', ValueText(e.1) + after);
    ValueRoundTrip(e.1, after);
    ParseEntryStep(EntryText(e) + after, e.0, r1, e.1, after);
  }

  lemma LastEntryRoundTrip(es: seq<(Value, Value)>, rest: string)
    requires |es| == 1
    ensures ParseEntries(EntriesText(es) + "}" + rest) == Some((es, rest))
  {
    CloseShape(rest);
    LastEntryShape(es, rest);
    EntryRoundTrip(es[0], "}" + rest);
    ParseLastEntry(EntriesText(es) + "}" + rest, es[0], "}" + rest);
    assert [es[0]] == es;
  }

  lemma MoreEntriesRoundTrip(es: seq<(Value, Value)>, rest: string)
    requires |es| > 1
    ensures ParseEntries(EntriesText(es[1..]) + "}" + rest) == Some((es[1..], rest)) ==>
              ParseEntries(EntriesText(es) + "}" + rest) == Some((es, rest))
  {
    var tail := EntriesText(es[1..]) + "}" + rest;
    MoreEntriesShape(es, rest);
    EntryRoundTrip(es[0], ", " + tail);
    PairShape(',', ' ', tail);
    ParseMoreEntries(EntriesText(es) + "}" + rest, es[0], ", " + tail, es[1..], rest);
    assert [es[0]] + es[1..] == es;
  }

  lemma {:induction false} EntriesRoundTrip(es: seq<(Value, Value)>, rest: string)
    requires es != []
    ensures ParseEntries(EntriesText(es) + "}" + rest) == Some((es, rest))
    decreases |es|
  {
    if |es| == 1 {
      LastEntryRoundTrip(es, rest);
    } else {
      EntriesRoundTrip(es[1..], rest);
      MoreEntriesRoundTrip(es, rest);
    }
  }

  /** Reading back `str(d)` gives the dictionary `d` denotes. */
  lemma DictRoundTrip(es: seq<(Value, Value)>)
    ensures ParseLiteral(DictText(es)) == Some(Dict(ToMap(es)))
  {
    if es != [] {
      DictShape(es);
      EntriesRoundTrip(es, []);
      ParseDict(DictText(es), es);
    }
  }

  /** Reading back `str(v)` for a lone scalar gives `v`. */
  lemma ScalarRoundTrip(v: Value)
    ensures ParseLiteral(ValueText(v)) == Some(Scalar(v))
  {
    var s := ValueText(v);
    ValueRoundTrip(v, []);
    assert s + [] == s;
    assert s[0] != '{';
  }

  /** A four-entry dictionary reads back as exactly the bindings of its display. */
  lemma FourEntryRoundTrip(k1: Value, v1: Value, k2: Value, v2: Value, k3: Value, v3: Value, k4: Value, v4: Value)
    ensures ParseLiteral(DictText([(k1, v1), (k2, v2), (k3, v3), (k4, v4)])) ==
      Some(Dict(map[k1 := v1, k2 := v2, k3 := v3, k4 := v4]))
  {
    var e1, e2, e3, e4 := (k1, v1), (k2, v2), (k3, v3), (k4, v4);
    ToMapSnoc([], e1);
    assert [] + [e1] == [e1];
    ToMapSnoc([e1], e2);
    assert [e1] + [e2] == [e1, e2];
    ToMapSnoc([e1, e2], e3);
    assert [e1, e2] + [e3] == [e1, e2, e3];
    ToMapSnoc([e1, e2, e3], e4);
    assert [e1, e2, e3] + [e4] == [e1, e2, e3, e4];
    DictRoundTrip([e1, e2, e3, e4]);
  }
}
