/**
 Compact ASCII JSON text, as `json.dumps(..., ensure_ascii=True, separators=(",", ":"))`
 writes it, and the proof that it can be read back in only one way.
 Strings are sequences of Unicode scalar values.
 */
module JsonText {
  import opened Base

  // ---- Hexadecimal escapes ----

  function HexDigit(n: nat): char
    requires n < 16
  {
    if n < 10 then (n + '0' as int) as char else (n - 10 + 'a' as int) as char
  }

  function HexValue(c: char): Option<nat> {
    if '0' <= c <= '9' then Some(c as int - '0' as int)
    else if 'a' <= c <= 'f' then Some(c as int - 'a' as int + 10)
    else None
  }

  /** `\uXXXX` with four lower-case digits. */
  function Unit(n: nat): string
    requires n < 0x1_0000
  {
    ['\\', 'u', HexDigit(n / 16 / 16 / 16), HexDigit(n / 16 / 16 % 16), HexDigit(n / 16 % 16), HexDigit(n % 16)]
  }

  /** The value of a `\uXXXX` escape at the start of the text. */
  function UnitValue(s: string): (n: Option<nat>)
    ensures n.Some? ==> n.value < 0x1_0000 && |s| >= 6
  {
    if |s| < 6 || s[0] != '\\' || s[1] != 'u' then None
    else
      var a, b, c, d := HexValue(s[2]), HexValue(s[3]), HexValue(s[4]), HexValue(s[5]);
      if a.None? || b.None? || c.None? || d.None? then None
      else Some(((a.value * 16 + b.value) * 16 + c.value) * 16 + d.value)
  }

  lemma HexDigitHasValue(n: nat)
    requires n < 16
    ensures HexValue(HexDigit(n)) == Some(n)
  {
  }

  lemma UnitHasValue(n: nat, rest: string)
    requires n < 0x1_0000
    ensures UnitValue(Unit(n) + rest) == Some(n)
  {
    var a, b, c, d := n / 16 / 16 / 16, n / 16 / 16 % 16, n / 16 % 16, n % 16;
    HexDigitHasValue(a);
    HexDigitHasValue(b);
    HexDigitHasValue(c);
    HexDigitHasValue(d);
    hide HexDigit, HexValue;
    var s := Unit(n) + rest;
    assert s[0] == '\\' && s[1] == 'u';
    assert s[2] == HexDigit(a) && s[3] == HexDigit(b) && s[4] == HexDigit(c) && s[5] == HexDigit(d);
  }

  // ---- String escapes ----

  /** The letter of a two-character escape, for the characters that have one. */
  function ShortEscape(c: char): Option<char> {
    match c
    case '"' => Some('"')
    case '\\' => Some('\\')
    case '\n' => Some('n')
    case '\r' => Some('r')
    case '\t' => Some('t')
    case '\U{8}' => Some('b')
    case '\U{C}' => Some('f')
    case _ => None
  }

  function EscapeChar(c: char): string {
    if ShortEscape(c).Some? then ['\\', ShortEscape(c).value]
    else if ' ' <= c <= '~' then [c]
    else if c as int < 0x1_0000 then Unit(c as int)
    else
      var n := c as int - 0x1_0000;
      Unit(0xD800 + n / 0x400) + Unit(0xDC00 + n % 0x400)
  }

  function Escape(s: string): string {
    if s == [] then [] else EscapeChar(s[0]) + Escape(s[1..])
  }

  /** The two-character escapes; the solidus stands for itself. */
  lemma ShortEscapesMean()
    ensures EscapeChar('"') == ['\\', '"'] && EscapeChar('\\') == ['\\', '\\'] && EscapeChar('/') == ['/']
    ensures EscapeChar('\n') == ['\\', 'n'] && EscapeChar('\r') == ['\\', 'r'] && EscapeChar('\t') == ['\\', 't']
    ensures EscapeChar('\U{8}') == ['\\', 'b'] && EscapeChar('\U{C}') == ['\\', 'f']
  {
  }

  /** A control character, a letter beyond ASCII, and one beyond the first plane. */
  lemma LongEscapesMean()
    ensures EscapeChar('\U{1F}') == ['\\', 'u', '0', '0', '1', 'f']
    ensures EscapeChar('\U{E9}') == ['\\', 'u', '0', '0', 'e', '9']
    ensures EscapeChar('\U{1F600}') == ['\\', 'u', 'd', '8', '3', 'd'] + ['\\', 'u', 'd', 'e', '0', '0']
  {
    assert Unit(0x1F) == ['\\', 'u', '0', '0', '1', 'f'];
    assert Unit(0xE9) == ['\\', 'u', '0', '0', 'e', '9'];
    assert Unit(0xD83D) == ['\\', 'u', 'd', '8', '3', 'd'] && Unit(0xDE00) == ['\\', 'u', 'd', 'e', '0', '0'];
    hide Unit, HexDigit;
  }

  predicate IsPlain(c: char) {
    ' ' <= c <= '~' && c != '"' && c != '\\'
  }

  lemma PlainCharStays(c: char)
    requires IsPlain(c)
    ensures EscapeChar(c) == [c]
  {
  }

  /** Printable ASCII but for the quote and the backslash stands for itself. */
  lemma {:induction false} PlainStays(s: string)
    requires forall i | 0 <= i < |s| :: IsPlain(s[i])
    ensures Escape(s) == s
    decreases |s|
  {
    if s != [] {
      PlainCharStays(s[0]);
      hide EscapeChar, IsPlain;
      PlainStays(s[1..]);
      assert s == [s[0]] + s[1..];
    }
  }

  // ---- Reading escapes back (section 7 of RFC 8259) ----

  datatype Decoded = Decoded(c: char, used: nat)

  function ShortValue(letter: char): Option<char> {
    match letter
    case '"' => Some('"')
    case '\\' => Some('\\')
    case '/' => Some('/')
    case 'n' => Some('\n')
    case 'r' => Some('\r')
    case 't' => Some('\t')
    case 'b' => Some('\U{8}')
    case 'f' => Some('\U{C}')
    case _ => None
  }

  /** One escaped character at the start of the text, surrogate pairs included. */
  function DecodeChar(s: string): (r: Option<Decoded>)
    ensures r.Some? ==> 0 < r.value.used <= |s|
  {
    if s == [] || s[0] == '"' then None
    else if s[0] != '\\' then Some(Decoded(s[0], 1))
    else if |s| < 2 then None
    else if s[1] != 'u' then
      if ShortValue(s[1]).Some? then Some(Decoded(ShortValue(s[1]).value, 2)) else None
    else
      var high := UnitValue(s);
      if high.None? || 0xDC00 <= high.value < 0xE000 then None
      else if !(0xD800 <= high.value < 0xDC00) then Some(Decoded(high.value as char, 6))
      else
        var low := UnitValue(s[6..]);
        if low.None? || !(0xDC00 <= low.value < 0xE000) then None
        else Some(Decoded((0x1_0000 + (high.value - 0xD800) * 0x400 + (low.value - 0xDC00)) as char, 12))
  }

  function Unescape(s: string): Option<string>
    decreases |s|
  {
    if s == [] then Some([])
    else if DecodeChar(s).None? then None
    else
      var rest := Unescape(s[DecodeChar(s).value.used..]);
      if rest.None? then None else Some([DecodeChar(s).value.c] + rest.value)
  }

  lemma SixLetters(n: nat)
    requires n < 0x1_0000
    ensures |Unit(n)| == 6 && Unit(n)[0] == '\\' && Unit(n)[1] == 'u'
  {
  }

  lemma SupplementaryRoundTrip(c: char, rest: string)
    requires c as int >= 0x1_0000
    ensures DecodeChar(EscapeChar(c) + rest) == Some(Decoded(c, 12))
  {
    var n := c as int - 0x1_0000;
    var high, low := 0xD800 + n / 0x400, 0xDC00 + n % 0x400;
    var s := Unit(high) + (Unit(low) + rest);
    assert EscapeChar(c) + rest == s;
    UnitHasValue(high, Unit(low) + rest);
    UnitHasValue(low, rest);
    SixLetters(high);
    SixLetters(low);
    hide Unit, UnitValue;
    assert s[6..] == Unit(low) + rest;
    assert s[0] == '\\' && s[1] == 'u';
  }

  /** Every escaped character is read back, whatever follows it. */
  lemma CharRoundTrip(c: char, rest: string)
    ensures DecodeChar(EscapeChar(c) + rest) == Some(Decoded(c, |EscapeChar(c)|))
  {
    var s := EscapeChar(c) + rest;
    if ShortEscape(c).Some? || ' ' <= c <= '~' {
      assert s[0] == EscapeChar(c)[0];
    } else if c as int < 0x1_0000 {
      UnitHasValue(c as int, rest);
      assert s[0] == '\\' && s[1] == 'u';
    } else {
      SupplementaryRoundTrip(c, rest);
    }
  }

  /** A character is read, and then the rest. */
  lemma UnescapeStep(first: string, c: char, rest: string)
    requires DecodeChar(first + rest) == Some(Decoded(c, |first|))
    ensures Unescape(rest).Some? ==> Unescape(first + rest) == Some([c] + Unescape(rest).value)
  {
    assert (first + rest)[|first|..] == rest && first + rest != [];
    hide DecodeChar;
  }

  /** Unescaping an escaped string gives the string back. */
  lemma {:induction false} EscapeRoundTrip(s: string)
    ensures Unescape(Escape(s)) == Some(s)
    decreases |s|
  {
    if s != [] {
      var first, rest := EscapeChar(s[0]), Escape(s[1..]);
      CharRoundTrip(s[0], rest);
      assert Escape(s) == first + rest;
      hide Escape, EscapeChar;
      UnescapeStep(first, s[0], rest);
      EscapeRoundTrip(s[1..]);
      hide Unescape, DecodeChar;
      assert [s[0]] + s[1..] == s;
    }
  }

  /** A quoted string ends at its first unescaped quote, so what follows can be told apart from it. */
  lemma {:induction false} EscapeIsSelfDelimiting(a: string, b: string, r: string, t: string)
    requires Escape(a) + (['"'] + r) == Escape(b) + (['"'] + t)
    ensures a == b && r == t
    decreases |a|
  {
    var s := Escape(a) + (['"'] + r);
    if a != [] {
      UnrollEscape(a, ['"'] + r);
      assert DecodeChar(s).Some?;
    }
    if b != [] {
      UnrollEscape(b, ['"'] + t);
      assert DecodeChar(s).Some?;
    }
    if a == [] || b == [] {
      assert a == [] ==> s[0] == '"';
      assert b == [] ==> s[0] == '"';
      assert a == b == [];
      assert r == s[1..] && t == s[1..];
    } else {
      EscapeIsSelfDelimiting(a[1..], b[1..], r, t);
      assert a == [a[0]] + a[1..] && b == [b[0]] + b[1..];
    }
  }

  lemma UnrollEscape(a: string, rest: string)
    requires a != []
    ensures DecodeChar(Escape(a) + rest) == Some(Decoded(a[0], |EscapeChar(a[0])|))
    ensures (Escape(a) + rest)[|EscapeChar(a[0])|..] == Escape(a[1..]) + rest
  {
    var first, tail := EscapeChar(a[0]), Escape(a[1..]);
    CharRoundTrip(a[0], tail + rest);
    assert Escape(a) == first + tail;
    hide Escape, EscapeChar, DecodeChar;
    Regroup(first, tail, rest);
  }

  lemma Regroup(a: string, b: string, c: string)
    ensures (a + b) + c == a + (b + c) && (a + (b + c))[|a|..] == b + c
  {
  }

  // ---- Values ----

  datatype Json = Null | Bool(b: bool) | Number(token: Token) | Text(s: string) | Object(fields: Fields)

  datatype Fields = Nil | Field(key: string, value: Json, tail: Fields)

  function Quote(s: string): string {
    ['"'] + Escape(s) + ['"']
  }

  function Print(v: Json): string {
    match v
    case Null => "null"
    case Bool(b) => if b then "true" else "false"
    case Number(token) => token
    case Text(s) => Quote(s)
    case Object(fields) => "{" + PrintFields(fields) + "}"
  }

  function PrintFields(fields: Fields): string {
    match fields
    case Nil => ""
    case Field(key, value, Nil) => Quote(key) + ":" + Print(value)
    case Field(key, value, tail) => Quote(key) + ":" + Print(value) + "," + PrintFields(tail)
  }

  /** The separators are one character each, and there is no blank anywhere. */
  lemma PrintIsCompact(k: string, v: Json, l: string, w: Json)
    ensures Print(Object(Field(k, v, Field(l, w, Nil)))) ==
            "{" + (Quote(k) + ":" + Print(v) + "," + (Quote(l) + ":" + Print(w))) + "}"
    ensures Print(Null) == "null" && Print(Bool(true)) == "true" && Print(Bool(false)) == "false"
    ensures |Print(Object(Field(k, v, Field(l, w, Nil))))| == |Quote(k)| + |Print(v)| + |Quote(l)| + |Print(w)| + 5
  {
    hide Quote;
    var last := Field(l, w, Nil);
    assert PrintFields(last) == Quote(l) + ":" + Print(w);
    assert PrintFields(Field(k, v, last)) == Quote(k) + ":" + Print(v) + "," + PrintFields(last);
  }

  lemma PlainIsQuoted(s: string)
    requires forall i | 0 <= i < |s| :: IsPlain(s[i])
    ensures Quote(s) == ['"'] + s + ['"']
  {
    PlainStays(s);
  }

  /** What may follow a value: nothing, a comma or a closing brace. */
  predicate Delimited(rest: string) {
    rest == [] || rest[0] == ',' || rest[0] == '}'
  }

  lemma {:induction false} QuoteIsSelfDelimiting(a: string, b: string, r: string, t: string)
    requires Quote(a) + r == Quote(b) + t
    ensures a == b && r == t
  {
    assert Quote(a) + r == ['"'] + (Escape(a) + (['"'] + r));
    assert Quote(b) + t == ['"'] + (Escape(b) + (['"'] + t));
    assert Escape(a) + (['"'] + r) == (Quote(a) + r)[1..];
    assert Escape(b) + (['"'] + t) == (Quote(b) + t)[1..];
    EscapeIsSelfDelimiting(a, b, r, t);
  }

  /** The length of the longest prefix that could belong to a number. */
  function NumericRun(s: string): nat {
    if s == [] || !IsNumeric(s[0]) then 0 else 1 + NumericRun(s[1..])
  }

  lemma {:induction false} NumericRunOfToken(token: string, rest: string)
    requires (forall c | c in token :: IsNumeric(c)) && Delimited(rest)
    ensures NumericRun(token + rest) == |token|
    decreases |token|
  {
    if token == [] {
      assert token + rest == rest;
    } else {
      assert token[0] in token;
      assert (token + rest)[1..] == token[1..] + rest;
      NumericRunOfToken(token[1..], rest);
    }
  }

  lemma TokenIsDelimited(a: Token, b: Token, r: string, t: string)
    requires a + r == b + t && Delimited(r) && Delimited(t)
    ensures a == b && r == t
  {
    NumericRunOfToken(a, r);
    NumericRunOfToken(b, t);
    assert a == (a + r)[..|a|] && b == (b + t)[..|b|];
    assert r == (a + r)[|a|..] && t == (b + t)[|b|..];
  }

  // ---- Printing with a continuation ----

  /** The text of a value followed by `rest`. */
  function Emit(v: Json, rest: string): string
    decreases v, 0
  {
    match v
    case Null => "null" + rest
    case Bool(b) => (if b then "true" else "false") + rest
    case Number(token) => token + rest
    case Text(s) => Quote(s) + rest
    case Object(fields) => ['{'] + EmitFields(fields, ['}'] + rest)
  }

  function EmitFields(fields: Fields, rest: string): string
    decreases fields, 0
  {
    match fields
    case Nil => rest
    case Field(key, value, tail) => Quote(key) + ([':'] + Emit(value, AfterField(tail, rest)))
  }

  function AfterField(tail: Fields, rest: string): string
    decreases tail, 1
  {
    if tail.Nil? then rest else [','] + EmitFields(tail, rest)
  }

  lemma {:induction false} EmitIsPrint(v: Json, rest: string)
    ensures Emit(v, rest) == Print(v) + rest
    decreases v
  {
    match v {
      case Object(fields) =>
        EmitFieldsIsPrint(fields, ['}'] + rest);
        assert ['{'] + (PrintFields(fields) + (['}'] + rest)) == "{" + PrintFields(fields) + "}" + rest;
      case _ =>
    }
  }

  lemma {:induction false} EmitFieldsIsPrint(fields: Fields, rest: string)
    ensures EmitFields(fields, rest) == PrintFields(fields) + rest
    decreases fields
  {
    match fields {
      case Nil =>
      case Field(key, value, tail) =>
        EmitFieldsIsPrint(tail, rest);
        EmitIsPrint(value, AfterField(tail, rest));
        hide Quote, Print, Emit;
        Regroup(Quote(key), ":", Print(value));
        Regroup(Quote(key), ":" + Print(value), rest);
        Regroup(":", Print(value), rest);
        if tail.Field? {
          Regroup(Quote(key) + ":" + Print(value), "," + PrintFields(tail), rest);
          Regroup(",", PrintFields(tail), rest);
          Regroup(Quote(key), ":" + Print(value), "," + (PrintFields(tail) + rest));
          Regroup(":", Print(value), "," + (PrintFields(tail) + rest));
          Regroup(Quote(key) + ":" + Print(value), ",", PrintFields(tail));
        }
    }
  }

  // ---- Reading in only one way ----

  lemma {:induction false} EmitIsInjective(v: Json, w: Json, r: string, t: string)
    requires Emit(v, r) == Emit(w, t) && Delimited(r) && Delimited(t)
    ensures v == w && r == t
    decreases v
  {
    FirstCharTellsKind(v, r);
    FirstCharTellsKind(w, t);
    match v {
      case Null =>
        assert r == Emit(v, r)[4..] && t == Emit(w, t)[4..];
      case Bool(b) =>
        var n := if b then 4 else 5;
        assert r == Emit(v, r)[n..] && t == Emit(w, t)[n..];
      case Number(token) =>
        TokenIsDelimited(token, w.token, r, t);
      case Text(s) =>
        QuoteIsSelfDelimiting(s, w.s, r, t);
      case Object(fields) =>
        var r', t' := ['}'] + r, ['}'] + t;
        assert EmitFields(fields, r') == Emit(v, r)[1..] && EmitFields(w.fields, t') == Emit(w, t)[1..];
        EmitFieldsIsInjective(fields, w.fields, r', t');
        assert r == r'[1..] && t == t'[1..];
    }
  }

  /** 0 to 5 for null, true, false, number, text, object. */
  function Kind(v: Json): nat {
    match v
    case Null => 0
    case Bool(b) => if b then 1 else 2
    case Number(_) => 3
    case Text(_) => 4
    case Object(_) => 5
  }

  function KindOf(c: char): nat {
    if c == 'n' then 0
    else if c == 't' then 1
    else if c == 'f' then 2
    else if c == '"' then 4
    else if c == '{' then 5
    else 3
  }

  lemma FirstCharTellsKind(v: Json, rest: string)
    ensures Emit(v, rest) != [] && KindOf(Emit(v, rest)[0]) == Kind(v)
  {
    if v.Number? {
      assert Emit(v, rest)[0] == v.token[0] && IsNumeric(v.token[0]);
    }
  }

  lemma {:induction false} EmitFieldsIsInjective(f: Fields, g: Fields, r: string, t: string)
    requires r != [] && r[0] == '}' && t != [] && t[0] == '}'
    requires EmitFields(f, r) == EmitFields(g, t)
    ensures f == g && r == t
    decreases f
  {
    assert f.Nil? <==> EmitFields(f, r)[0] == '}';
    assert g.Nil? <==> EmitFields(g, t)[0] == '}';
    if f.Field? {
      var vr, wt := Emit(f.value, AfterField(f.tail, r)), Emit(g.value, AfterField(g.tail, t));
      QuoteIsSelfDelimiting(f.key, g.key, [':'] + vr, [':'] + wt);
      assert vr == ([':'] + vr)[1..] && wt == ([':'] + wt)[1..];
      EmitIsInjective(f.value, g.value, AfterField(f.tail, r), AfterField(g.tail, t));
      assert f.tail.Nil? <==> AfterField(f.tail, r)[0] == '}';
      assert g.tail.Nil? <==> AfterField(g.tail, t)[0] == '}';
      if f.tail.Field? {
        var fr, gt := EmitFields(f.tail, r), EmitFields(g.tail, t);
        assert fr == ([','] + fr)[1..] && gt == ([','] + gt)[1..];
        EmitFieldsIsInjective(f.tail, g.tail, r, t);
      }
    }
  }

  /** Two values with the same text are the same value. */
  lemma PrintIsInjective(v: Json, w: Json)
    requires Print(v) == Print(w)
    ensures v == w
  {
    EmitIsPrint(v, []);
    EmitIsPrint(w, []);
    EmitIsInjective(v, w, [], []);
  }

  // ---- The text is printable ASCII ----

  ghost predicate Printable(s: string) {
    forall i | 0 <= i < |s| :: ' ' <= s[i] <= '~'
  }

  lemma ConcatIsPrintable(a: string, b: string)
    requires Printable(a) && Printable(b)
    ensures Printable(a + b)
  {
  }

  lemma {:induction false} EscapeIsPrintable(s: string)
    ensures Printable(Escape(s))
    decreases |s|
  {
    if s != [] {
      EscapeIsPrintable(s[1..]);
      EscapedCharIsPrintable(s[0]);
      ConcatIsPrintable(EscapeChar(s[0]), Escape(s[1..]));
    }
  }

  lemma UnitIsPrintable(n: nat)
    requires n < 0x1_0000
    ensures Printable(Unit(n))
  {
  }

  lemma EscapedCharIsPrintable(c: char)
    ensures Printable(EscapeChar(c))
  {
    if c as int >= 0x1_0000 {
      var n := c as int - 0x1_0000;
      UnitIsPrintable(0xD800 + n / 0x400);
      UnitIsPrintable(0xDC00 + n % 0x400);
    } else {
      UnitIsPrintable(c as int);
    }
    hide Unit;
  }

  lemma QuoteIsPrintable(s: string, rest: string)
    requires Printable(rest)
    ensures Printable(Quote(s) + rest)
  {
    EscapeIsPrintable(s);
    ConcatIsPrintable(Escape(s), ['"']);
    ConcatIsPrintable(['"'], Escape(s) + ['"']);
    assert Quote(s) == ['"'] + (Escape(s) + ['"']);
    ConcatIsPrintable(Quote(s), rest);
  }

  lemma LiteralsArePrintable(token: Token)
    ensures Printable("null") && Printable("true") && Printable("false") && Printable(token)
    ensures Printable("{") && Printable("}") && Printable(":") && Printable(",")
  {
    assert forall i | 0 <= i < |token| :: IsNumeric(token[i]);
  }

  lemma {:induction false} EmitIsPrintable(v: Json, rest: string)
    requires Printable(rest)
    ensures Printable(Emit(v, rest))
    decreases v
  {
    LiteralsArePrintable(if v.Number? then v.token else "0");
    hide Printable, Quote, EmitFields;
    match v {
      case Null => ConcatIsPrintable("null", rest);
      case Bool(b) => ConcatIsPrintable(if b then "true" else "false", rest);
      case Number(token) => ConcatIsPrintable(token, rest);
      case Text(s) => QuoteIsPrintable(s, rest);
      case Object(fields) =>
        ConcatIsPrintable("}", rest);
        EmitFieldsIsPrintable(fields, "}" + rest);
        ConcatIsPrintable("{", EmitFields(fields, "}" + rest));
    }
  }

  lemma {:induction false} EmitFieldsIsPrintable(f: Fields, rest: string)
    requires Printable(rest)
    ensures Printable(EmitFields(f, rest))
    decreases f
  {
    LiteralsArePrintable("0");
    hide Printable, Quote, Emit;
    if f.Field? {
      var after := AfterField(f.tail, rest);
      if f.tail.Field? {
        EmitFieldsIsPrintable(f.tail, rest);
        ConcatIsPrintable(",", EmitFields(f.tail, rest));
      }
      EmitIsPrintable(f.value, after);
      ConcatIsPrintable(":", Emit(f.value, after));
      QuoteIsPrintable(f.key, ":" + Emit(f.value, after));
    }
  }

  /** `ensure_ascii=True`: no text leaves the printable ASCII characters. */
  lemma PrintIsPrintable(v: Json)
    ensures Printable(Print(v))
  {
    EmitIsPrintable(v, []);
    EmitIsPrint(v, []);
    assert Print(v) + [] == Print(v);
    hide Emit, Print;
  }
}
