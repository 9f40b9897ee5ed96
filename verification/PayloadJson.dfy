/** How a wire payload is written as JSON: escaped texts, decimal numbers, base64 data, and empty fields left out. */
module PayloadJson {
  import opened Basics
  import opened Paths

  function HexDigit(n: nat): (c: char)
    requires n < 16
    ensures (c as int) < 0x80
  {
    if n < 10 then (48 + n) as char else (97 + n - 10) as char
  }

  // ----- texts -----

  function Unicode(n: nat): (text: string)
    requires n < 0x10000
    ensures |text| == 6 && Ascii(text)
  {
    ['\\', 'u', HexDigit(n / 4096), HexDigit(n / 256 % 16), HexDigit(n / 16 % 16), HexDigit(n % 16)]
  }

  /** Quotes, backslashes, controls, and the characters that matter to HTML and JavaScript are escaped. */
  function EscapeChar(c: char): string {
    if c == '"' || c == '\\' then "\\" + [c]
    else if c == '\n' then "\\n"
    else if c == '\r' then "\\r"
    else if c == '\t' then "\\t"
    else if (c as int) < 0x20 || c in {'<', '>', '&', '\U{2028}', '\U{2029}'} then Unicode(c as int)
    else [c]
  }

  function Escape(text: string): string {
    if text == "" then "" else EscapeChar(text[0]) + Escape(text[1..])
  }

  function Quoted(text: string): string {
    "\"" + Escape(text) + "\""
  }

  // ----- numbers and data -----

  function Decimal(n: nat): string {
    if n < 10 then [HexDigit(n)] else Decimal(n / 10) + [HexDigit(n % 10)]
  }

  /** The letters of base64: A to Z, a to z, 0 to 9, plus and slash. */
  function Letter(n: nat): (c: char)
    requires n < 64
    ensures (c as int) < 0x80
  {
    if n < 26 then (65 + n) as char
    else if n < 52 then (97 + n - 26) as char
    else if n < 62 then (48 + n - 52) as char
    else if n == 62 then '+' else '/'
  }

  /** Four letters for every three bytes, the last group padded. */
  function Base64(data: seq<byte>): string {
    if data == [] then ""
    else
      var a := data[0] as int;
      var b := if |data| > 1 then data[1] as int else 0;
      var c := if |data| > 2 then data[2] as int else 0;
      [Letter(a / 4), Letter(a % 4 * 16 + b / 16),
       if |data| > 1 then Letter(b % 16 * 4 + c / 64) else '=',
       if |data| > 2 then Letter(c % 64) else '=']
      + (if |data| > 3 then Base64(data[3..]) else "")
  }

  // ----- fields -----

  function Field(name: string, value: string): string {
    ",\"" + name + "\":" + value
  }

  function TextField(name: string, text: string): string {
    if text == "" then "" else Field(name, Quoted(text))
  }

  function NumberField(name: string, n: int): string
    requires n >= 0
  {
    if n == 0 then "" else Field(name, Decimal(n))
  }

  function DataField(name: string, data: seq<byte>): string {
    if data == [] then "" else Field(name, "\"" + Base64(data) + "\"")
  }

  // ----- lengths -----

  lemma {:induction false} LengthJoins(a: string, b: string)
    ensures Utf8Length(a + b) == Utf8Length(a) + Utf8Length(b)
  {
    if a == "" {
      assert a + b == b;
    } else {
      assert (a + b)[1..] == a[1..] + b;
      LengthJoins(a[1..], b);
    }
  }

  predicate Ascii(text: string) {
    forall i :: 0 <= i < |text| ==> (text[i] as int) < 0x80
  }

  lemma {:induction false} AsciiLength(text: string)
    requires Ascii(text)
    ensures Utf8Length(text) == |text|
  {
    if text != "" {
      AsciiLength(text[1..]);
    }
  }

  lemma EscapedChar(c: char)
    ensures Utf8Length(EscapeChar(c)) <= 6 * CharBytes(c)
  {
    var escaped := EscapeChar(c);
    if escaped == [c] {
      assert [c][1..] == "";
    } else {
      AsciiLength(escaped);
    }
  }

  /** Escaping takes at most six bytes for one. */
  lemma {:induction false} EscapedLength(text: string)
    ensures Utf8Length(Escape(text)) <= 6 * Utf8Length(text)
  {
    if text != "" {
      EscapedLength(text[1..]);
      EscapedChar(text[0]);
      LengthJoins(EscapeChar(text[0]), Escape(text[1..]));
    }
  }

  lemma QuotedLength(text: string)
    ensures Utf8Length(Quoted(text)) <= 2 + 6 * Utf8Length(text)
  {
    EscapedLength(text);
    LengthJoins("\"", Escape(text));
    LengthJoins("\"" + Escape(text), "\"");
    AsciiLength("\"");
  }

  lemma {:induction false} DecimalLength(n: nat, digits: nat, bound: nat)
    requires n < bound && bound == Power(digits) && digits > 0
    ensures Ascii(Decimal(n)) && |Decimal(n)| <= digits
  {
    if n >= 10 {
      DecimalLength(n / 10, digits - 1, Power(digits - 1));
    }
  }

  function Power(digits: nat): nat {
    if digits == 0 then 1 else 10 * Power(digits - 1)
  }

  lemma {:induction false} Base64Length(data: seq<byte>)
    ensures Ascii(Base64(data)) && |Base64(data)| == (|data| + 2) / 3 * 4
  {
    if |data| > 3 {
      Base64Length(data[3..]);
    }
  }

  lemma FieldLength(name: string, value: string)
    requires Ascii(name)
    ensures Utf8Length(Field(name, value)) == |name| + 4 + Utf8Length(value)
  {
    var key := ",\"" + name + "\":";
    assert Field(name, value) == key + value;
    AsciiLength(key);
    LengthJoins(key, value);
  }

  lemma TextFieldLength(name: string, text: string)
    requires Ascii(name)
    ensures Utf8Length(TextField(name, text)) <= if text == "" then 0 else |name| + 6 + 6 * Utf8Length(text)
  {
    FieldLength(name, Quoted(text));
    QuotedLength(text);
  }

  lemma NumberFieldLength(name: string, n: nat)
    requires Ascii(name) && n < 100_000_000
    ensures Utf8Length(NumberField(name, n)) <= if n == 0 then 0 else |name| + 12
  {
    assert Power(8) == 100_000_000 by {
      assert Power(4) == 10_000;
    }
    DecimalLength(n, 8, Power(8));
    FieldLength(name, Decimal(n));
    AsciiLength(Decimal(n));
  }

  lemma DataFieldLength(name: string, data: seq<byte>)
    requires Ascii(name)
    ensures Utf8Length(DataField(name, data)) <= |name| + 6 + (|data| + 2) / 3 * 4
  {
    Base64Length(data);
    FieldLength(name, "\"" + Base64(data) + "\"");
    AsciiLength("\"" + Base64(data) + "\"");
  }

  lemma TwoTexts(name: string, text: string, name': string, text': string)
    requires Ascii(name) && Ascii(name')
    ensures Utf8Length(TextField(name, text) + TextField(name', text'))
      <= |name| + |name'| + 12 + 6 * (Utf8Length(text) + Utf8Length(text'))
  {
    TextFieldLength(name, text);
    TextFieldLength(name', text');
    LengthJoins(TextField(name, text), TextField(name', text'));
  }

  lemma TextNumberText(a: string, text: string, b: string, n: nat, c: string, text': string)
    requires Ascii(a) && Ascii(b) && Ascii(c) && n < 100_000_000
    ensures Utf8Length(TextField(a, text) + NumberField(b, n) + TextField(c, text'))
      <= |a| + |b| + |c| + 24 + 6 * (Utf8Length(text) + Utf8Length(text'))
  {
    TextFieldLength(a, text);
    NumberFieldLength(b, n);
    TextFieldLength(c, text');
    LengthJoins(TextField(a, text), NumberField(b, n));
    LengthJoins(TextField(a, text) + NumberField(b, n), TextField(c, text'));
  }

  lemma TextAfter(start: string, text: string)
    requires Ascii(start) && Ascii(text)
    ensures Utf8Length(start + Quoted(text)) <= |start| + 2 + 6 * |text|
  {
    AsciiLength(start);
    AsciiLength(text);
    QuotedLength(text);
    LengthJoins(start, Quoted(text));
  }
}
