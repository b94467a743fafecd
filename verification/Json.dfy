// A reader for JSON text (RFC 8259), as the relay uses it on channel payloads and
// hash values: the whole grammar, with the nesting limit of the relay's library.
module Json {
  import opened Options

  // A number keeps the digits it was written with. An object keeps its members in
  // text order, so that repeated names stay visible.
  datatype Value =
    | Null
    | Bool(b: bool)
    | Num(lexeme: string)
    | Str(s: string)
    | Arr(items: seq<Value>)
    | Obj(members: seq<Member>)

  datatype Member = Member(name: string, value: Value)

  datatype Parsed<+T> = Parsed(result: T, rest: string)

  // Nesting depth at which the reader gives up.
  const MAX_DEPTH: nat := 128

  // ------------------------------------------------------------------
  // Characters
  // ------------------------------------------------------------------

  predicate IsSpace(c: char) {
    c == ' ' || c == '\t' || c == '\n' || c == '\r'
  }

  predicate IsDigit(c: char) {
    '0' <= c <= '9'
  }

  // Characters a string literal may not contain unescaped (section 7 of RFC 8259).
  predicate IsSpecial(c: char) {
    c == '"' || c == '\\' || c < ' '
  }

  // A string that can be placed between quotes as it is.
  predicate Plain(s: string) {
    forall i :: 0 <= i < |s| ==> !IsSpecial(s[i])
  }

  function SkipSpace(s: string): (r: string)
    ensures |r| <= |s|
    ensures r != "" ==> !IsSpace(r[0])
  {
    if s != "" && IsSpace(s[0]) then SkipSpace(s[1..]) else s
  }

  // ------------------------------------------------------------------
  // Strings
  // ------------------------------------------------------------------

  function HexDigit(c: char): (r: Option<nat>)
    ensures r.Some? ==> r.value < 16
  {
    if '0' <= c <= '9' then Some(c as int - '0' as int)
    else if 'a' <= c <= 'f' then Some(c as int - 'a' as int + 10)
    else if 'A' <= c <= 'F' then Some(c as int - 'A' as int + 10)
    else None
  }

  function Hex4(s: string): (r: Option<nat>)
    ensures r.Some? ==> |s| >= 4 && r.value < 0x10000
  {
    if |s| < 4 then None
    else
      var a :- HexDigit(s[0]);
      var b :- HexDigit(s[1]);
      var c :- HexDigit(s[2]);
      var d :- HexDigit(s[3]);
      Some(((a * 16 + b) * 16 + c) * 16 + d)
  }

  // What follows a backslash. A lone surrogate is an error.
  function Escape(s: string): (r: Option<Parsed<char>>)
    ensures r.Some? ==> |r.value.rest| < |s|
  {
    if s == "" then None
    else match s[0]
      case '"' => Some(Parsed('"', s[1..]))
      case '\\' => Some(Parsed('\\', s[1..]))
      case '/' => Some(Parsed('/', s[1..]))
      case 'b' => Some(Parsed('\U{08}', s[1..]))
      case 'f' => Some(Parsed('\U{0C}', s[1..]))
      case 'n' => Some(Parsed('\n', s[1..]))
      case 'r' => Some(Parsed('\r', s[1..]))
      case 't' => Some(Parsed('\t', s[1..]))
      case 'u' =>
        var hi :- Hex4(s[1..]);
        if 0xD800 <= hi < 0xDC00 then
          if |s| >= 7 && s[5] == '\\' && s[6] == 'u' then
            var lo :- Hex4(s[7..]);
            if 0xDC00 <= lo < 0xE000
            then Some(Parsed((0x10000 + (hi - 0xD800) * 0x400 + (lo - 0xDC00)) as char, s[11..]))
            else None
          else None
        else if 0xDC00 <= hi < 0xE000 then None
        else Some(Parsed(hi as char, s[5..]))
      case _ => None
  }

  // A string literal after its opening quote.
  function StringBody(s: string): (r: Option<Parsed<string>>)
    ensures r.Some? ==> |r.value.rest| < |s|
    decreases |s|
  {
    if s == "" then None
    else if s[0] == '"' then Some(Parsed("", s[1..]))
    else if s[0] == '\\' then
      var c :- Escape(s[1..]);
      var d :- StringBody(c.rest);
      Some(Parsed([c.result] + d.result, d.rest))
    else if s[0] < ' ' then None
    else
      var d :- StringBody(s[1..]);
      Some(Parsed([s[0]] + d.result, d.rest))
  }

  // ------------------------------------------------------------------
  // Numbers
  // ------------------------------------------------------------------

  function DigitRun(s: string): (n: nat)
    ensures n <= |s|
    ensures forall i :: 0 <= i < n ==> IsDigit(s[i])
  {
    if s != "" && IsDigit(s[0]) then 1 + DigitRun(s[1..]) else 0
  }

  // Length of the fraction that starts s; 0 when there is none, None when malformed.
  function FractionLength(s: string): (r: Option<nat>)
    ensures r.Some? ==> r.value <= |s|
  {
    if s == "" || s[0] != '.' then Some(0)
    else if DigitRun(s[1..]) == 0 then None
    else Some(1 + DigitRun(s[1..]))
  }

  function ExponentLength(s: string): (r: Option<nat>)
    ensures r.Some? ==> r.value <= |s|
  {
    if s == "" || (s[0] != 'e' && s[0] != 'E') then Some(0)
    else
      var sign := if |s| > 1 && (s[1] == '+' || s[1] == '-') then 2 else 1;
      if DigitRun(s[sign..]) == 0 then None
      else Some(sign + DigitRun(s[sign..]))
  }

  function NumberLength(s: string): (r: Option<nat>)
    ensures r.Some? ==> 0 < r.value <= |s|
  {
    var sign := if s != "" && s[0] == '-' then 1 else 0;
    var whole := DigitRun(s[sign..]);
    if whole == 0 || (whole > 1 && s[sign] == '0') then None
    else
      var fraction :- FractionLength(s[sign + whole..]);
      var exponent :- ExponentLength(s[sign + whole + fraction..]);
      Some(sign + whole + fraction + exponent)
  }

  function DigitsValue(ds: string): nat
    requires forall i :: 0 <= i < |ds| ==> IsDigit(ds[i])
  {
    if ds == "" then 0
    else
      var last := ds[|ds| - 1];
      assert IsDigit(last);
      DigitsValue(ds[..|ds| - 1]) * 10 + (last as int - '0' as int)
  }

  function Power10(e: nat): (r: real)
    ensures r > 0.0
  {
    if e == 0 then 1.0 else 10.0 * Power10(e - 1)
  }

  // The number a lexeme denotes, without the rounding of a binary double.
  function NumberValue(lexeme: string): real
    requires NumberLength(lexeme) == Some(|lexeme|)
  {
    if lexeme[0] == '-' then -UnsignedValue(lexeme[1..]) else UnsignedValue(lexeme[0..])
  }

  function UnsignedValue(s: string): real {
    var whole := DigitRun(s);
    var fraction := FractionValue(s[whole..]);
    Scale(DigitsValue(s[..whole]) as real + fraction.0, s[whole..][fraction.1..])
  }

  // The fraction that starts s, and its length.
  function FractionValue(s: string): (r: (real, nat))
    ensures r.1 <= |s|
  {
    if s == "" || s[0] != '.' then (0.0, 0)
    else
      var n := DigitRun(s[1..]);
      (DigitsValue(s[1..][..n]) as real / Power10(n), 1 + n)
  }

  // Applies the exponent that starts s, if any.
  function Scale(magnitude: real, s: string): real {
    if |s| < 2 || (s[0] != 'e' && s[0] != 'E') then magnitude
    else
      var digits := if s[1] == '+' || s[1] == '-' then s[2..] else s[1..];
      var power := Power10(DigitsValue(digits[..DigitRun(digits)]));
      if s[1] == '-' then magnitude / power else magnitude * power
  }

  // ------------------------------------------------------------------
  // Values
  // ------------------------------------------------------------------

  function ReadValue(s: string, depth: nat): (r: Option<Parsed<Value>>)
    ensures r.Some? ==> |r.value.rest| < |s|
    decreases |s|, 1
  {
    var t := SkipSpace(s);
    if t == "" then None
    else if t[0] == '"' then
      var d :- StringBody(t[1..]);
      Some(Parsed(Str(d.result), d.rest))
    else if t[0] == '{' then
      if depth <= 1 then None
      else
        var u := SkipSpace(t[1..]);
        if u != "" && u[0] == '}' then Some(Parsed(Obj([]), u[1..]))
        else
          var m :- ReadMembers(t[1..], depth - 1);
          Some(Parsed(Obj(m.result), m.rest))
    else if t[0] == '[' then
      if depth <= 1 then None
      else
        var u := SkipSpace(t[1..]);
        if u != "" && u[0] == ']' then Some(Parsed(Arr([]), u[1..]))
        else
          var a :- ReadItems(t[1..], depth - 1);
          Some(Parsed(Arr(a.result), a.rest))
    else if "true" <= t then Some(Parsed(Bool(true), t[4..]))
    else if "false" <= t then Some(Parsed(Bool(false), t[5..]))
    else if "null" <= t then Some(Parsed(Null, t[4..]))
    else
      var n :- NumberLength(t);
      Some(Parsed(Num(t[..n]), t[n..]))
  }

  // One or more members and the closing brace.
  function ReadMembers(s: string, depth: nat): (r: Option<Parsed<seq<Member>>>)
    ensures r.Some? ==> |r.value.rest| < |s|
    decreases |s|, 0
  {
    var t := SkipSpace(s);
    if t == "" || t[0] != '"' then None
    else
      var name :- StringBody(t[1..]);
      var u := SkipSpace(name.rest);
      if u == "" || u[0] != ':' then None
      else
        var v :- ReadValue(u[1..], depth);
        var w := SkipSpace(v.rest);
        if w == "" then None
        else if w[0] == '}' then Some(Parsed([Member(name.result, v.result)], w[1..]))
        else if w[0] != ',' then None
        else
          var more :- ReadMembers(w[1..], depth);
          Some(Parsed([Member(name.result, v.result)] + more.result, more.rest))
  }

  function ReadItems(s: string, depth: nat): (r: Option<Parsed<seq<Value>>>)
    ensures r.Some? ==> |r.value.rest| < |s|
    decreases |s|, 2
  {
    var v :- ReadValue(s, depth);
    var w := SkipSpace(v.rest);
    if w == "" then None
    else if w[0] == ']' then Some(Parsed([v.result], w[1..]))
    else if w[0] != ',' then None
    else
      var more :- ReadItems(w[1..], depth);
      Some(Parsed([v.result] + more.result, more.rest))
  }

  // A complete document: one value, then only white space.
  function FromStr(s: string): Option<Value> {
    var v :- ReadValue(s, MAX_DEPTH);
    if SkipSpace(v.rest) == "" then Some(v.result) else None
  }

  // The members as a map: of a repeated name the last one counts.
  function AsMap(ms: seq<Member>): map<string, Value> {
    if ms == [] then map[] else map[ms[0].name := ms[0].value] + AsMap(ms[1..])
  }

  lemma {:induction false} LastWins(ms: seq<Member>, i: nat)
    requires i < |ms| && forall j :: i < j < |ms| ==> ms[j].name != ms[i].name
    ensures ms[i].name in AsMap(ms) && AsMap(ms)[ms[i].name] == ms[i].value
  {
    if i > 0 {
      LastWins(ms[1..], i - 1);
    } else {
      Unnamed(ms[1..], ms[0].name);
    }
  }

  lemma {:induction false} Unnamed(ms: seq<Member>, name: string)
    requires forall j :: 0 <= j < |ms| ==> ms[j].name != name
    ensures name !in AsMap(ms)
  {
    if ms != [] {
      Unnamed(ms[1..], name);
    }
  }

  // ------------------------------------------------------------------
  // Escapes (section 7 of RFC 8259)
  // ------------------------------------------------------------------

  function HexChar(n: nat): (c: char)
    requires n < 16
    ensures HexDigit(c) == Some(n)
  {
    if n < 10 then '0' + n as char else 'a' + (n - 10) as char
  }

  function Hex4Text(n: nat): (s: string)
    requires n < 0x10000
    ensures |s| == 4
  {
    [HexChar(n / 0x1000), HexChar(n / 0x100 % 0x10), HexChar(n / 0x10 % 0x10), HexChar(n % 0x10)]
  }

  lemma {:induction false} Hex4Reads(n: nat, rest: string)
    requires n < 0x10000
    ensures Hex4(Hex4Text(n) + rest) == Some(n) && (Hex4Text(n) + rest)[4..] == rest
  {
    hide HexChar, HexDigit;
    var a, b, c, d := n / 0x1000, n / 0x100 % 0x10, n / 0x10 % 0x10, n % 0x10;
    assert ((a * 16 + b) * 16 + c) * 16 + d == n by {
      hide *;
      FourDigits(n);
    }
    assert Hex4Text(n) == [HexChar(a), HexChar(b), HexChar(c), HexChar(d)];
  }

  lemma {:induction false} FourDigits(n: nat)
    ensures ((n / 0x1000 * 16 + n / 0x100 % 0x10) * 16 + n / 0x10 % 0x10) * 16 + n % 0x10 == n
  {
    assert n / 0x10 == n / 0x100 * 0x10 + n / 0x10 % 0x10;
    assert n / 0x100 == n / 0x1000 * 0x10 + n / 0x100 % 0x10;
  }

  // A character by its number: one escape, or a surrogate pair of them.
  function Numbered(c: char): string {
    var n := c as int;
    if n < 0x10000 then "u" + Hex4Text(n)
    else
      assert n < 0x110000;
      "u" + Hex4Text(0xD800 + (n - 0x10000) / 0x400) + "\\u" + Hex4Text(0xDC00 + (n - 0x10000) % 0x400)
  }

  function AllNumbered(s: string): string {
    if s == "" then "" else "\\" + Numbered(s[0]) + AllNumbered(s[1..])
  }

  lemma {:induction false} NumberedReads(c: char, rest: string)
    ensures Escape(Numbered(c) + rest) == Some(Parsed(c, rest))
  {
    var n := c as int;
    hide Hex4, Hex4Text;
    if n < 0x10000 {
      var s := Numbered(c) + rest;
      assert s[1..] == Hex4Text(n) + rest;
      Hex4Reads(n, rest);
      assert s[5..] == s[1..][4..];
    } else {
      var hi, lo := 0xD800 + (n - 0x10000) / 0x400, 0xDC00 + (n - 0x10000) % 0x400;
      var after := Hex4Text(lo) + rest;
      var s := Numbered(c) + rest;
      assert s[1..] == Hex4Text(hi) + ("\\u" + after);
      Hex4Reads(hi, "\\u" + after);
      Hex4Reads(lo, rest);
      assert s[5..] == s[1..][4..];
      assert s[7..] == s[5..][2..] == after;
      assert s[11..] == s[7..][4..];
    }
  }

  // Any text at all, written in numbered escapes, is read back.
  lemma {:induction false} EscapesReadBack(text: string, rest: string)
    ensures StringBody(AllNumbered(text) + "\"" + rest) == Some(Parsed(text, rest))
  {
    var s := AllNumbered(text) + "\"" + rest;
    hide Escape, Numbered;
    if text == "" {
      assert s[1..] == rest;
    } else {
      var more := AllNumbered(text[1..]) + "\"" + rest;
      assert s[1..] == Numbered(text[0]) + more;
      NumberedReads(text[0], more);
      EscapesReadBack(text[1..], rest);
      assert [text[0]] + text[1..] == text;
    }
  }

  // The named escapes.
  lemma {:induction false} NamedEscapes(rest: string)
    ensures Escape("\"" + rest) == Some(Parsed('\"', rest)) && Escape("\\" + rest) == Some(Parsed('\\', rest))
    ensures Escape("/" + rest) == Some(Parsed('/', rest)) && Escape("b" + rest) == Some(Parsed(8 as char, rest))
    ensures Escape("f" + rest) == Some(Parsed(12 as char, rest)) && Escape("n" + rest) == Some(Parsed(10 as char, rest))
    ensures Escape("r" + rest) == Some(Parsed(13 as char, rest)) && Escape("t" + rest) == Some(Parsed(9 as char, rest))
  {
    forall c: char
      ensures ([c] + rest)[1..] == rest
    {
    }
  }
}
