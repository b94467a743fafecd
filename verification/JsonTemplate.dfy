// The plugin's way of writing JSON: a text template with `%s`, `%.2f`, `%d` and `%b`
// holes and no escaping; and the exact condition under which `Json.FromStr` reads it back.
module JsonTemplate {
  import opened Options
  import opened Sequences
  import opened Json

  // What fills a hole. Text goes between quotes as it is; Fixed2 is a `%.2f` of a
  // whole number of hundredths.
  datatype Hole = Text(s: string) | Fixed2(hundredths: nat) | Integer(n: nat) | Flag(b: bool)

  datatype Field = Field(name: string, hole: Hole)

  function Digit(d: nat): char
    requires d < 10
  {
    ('0' as int + d) as char
  }

  function Decimal(n: nat): (r: string)
    ensures r != ""
    ensures forall i :: 0 <= i < |r| ==> IsDigit(r[i])
    ensures |r| > 1 ==> r[0] != '0'
    ensures n > 0 ==> r[0] != '0'
  {
    if n < 10 then [Digit(n)] else Decimal(n / 10) + [Digit(n % 10)]
  }

  function Cents(h: nat): (r: string)
    ensures |r| == 2 && IsDigit(r[0]) && IsDigit(r[1])
  {
    [Digit(h / 10 % 10), Digit(h % 10)]
  }

  function Fixed2Text(h: nat): string {
    Decimal(h / 100) + "." + Cents(h)
  }

  function Quote(s: string): string {
    "\"" + s + "\""
  }

  function HoleText(h: Hole): string {
    match h
    case Text(s) => Quote(s)
    case Fixed2(n) => Fixed2Text(n)
    case Integer(n) => Decimal(n)
    case Flag(b) => if b then "true" else "false"
  }

  function FieldText(f: Field): string {
    Quote(f.name) + ":" + HoleText(f.hole)
  }

  function FieldsText(fs: seq<Field>): string
    requires fs != []
  {
    if |fs| == 1 then FieldText(fs[0]) + "}" else FieldText(fs[0]) + "," + FieldsText(fs[1..])
  }

  function Render(fs: seq<Field>): string
    requires fs != []
  {
    "{" + FieldsText(fs)
  }

  // The JSON value each hole stands for.
  function Meaning(h: Hole): Value {
    match h
    case Text(s) => Str(s)
    case Fixed2(n) => Num(Fixed2Text(n))
    case Integer(n) => Num(Decimal(n))
    case Flag(b) => Bool(b)
  }

  function Meanings(fs: seq<Field>): (ms: seq<Member>)
    ensures |ms| == |fs|
    ensures forall i :: 0 <= i < |fs| ==> ms[i] == Member(fs[i].name, Meaning(fs[i].hole))
  {
    if fs == [] then [] else [Member(fs[0].name, Meaning(fs[0].hole))] + Meanings(fs[1..])
  }

  predicate PlainHole(h: Hole) {
    h.Text? ==> Plain(h.s)
  }

  ghost predicate PlainHoles(fs: seq<Field>) {
    forall i :: 0 <= i < |fs| ==> PlainHole(fs[i].hole)
  }

  // Field names are literals of the templates.
  ghost predicate GoodNames(fs: seq<Field>) {
    && (forall i :: 0 <= i < |fs| ==> Plain(fs[i].name))
    && (forall i, j :: 0 <= i < j < |fs| ==> fs[i].name != fs[j].name)
  }

  // ------------------------------------------------------------------
  // Reading back what was rendered
  // ------------------------------------------------------------------

  lemma {:induction false} PlainBody(p: string, rest: string)
    requires Plain(p)
    ensures StringBody(p + "\"" + rest) == Some(Parsed(p, rest))
  {
    var t := p + "\"" + rest;
    if p == "" {
      assert t[1..] == rest;
    } else {
      PlainBody(p[1..], rest);
      assert t[1..] == p[1..] + "\"" + rest;
      assert t[0] == p[0];
      assert [p[0]] + p[1..] == p;
    }
  }

  lemma {:induction false} RunOfDigits(ds: string, rest: string)
    requires forall i :: 0 <= i < |ds| ==> IsDigit(ds[i])
    requires rest == "" || !IsDigit(rest[0])
    ensures DigitRun(ds + rest) == |ds|
  {
    if ds == "" {
      assert ds + rest == rest;
    } else {
      RunOfDigits(ds[1..], rest);
      assert (ds + rest)[1..] == ds[1..] + rest;
    }
  }

  predicate EndsField(rest: string) {
    rest != "" && (rest[0] == ',' || rest[0] == '}')
  }

  lemma {:induction false} DecimalLength(n: nat, rest: string)
    requires EndsField(rest)
    ensures NumberLength(Decimal(n) + rest) == Some(|Decimal(n)|)
  {
    hide Decimal, DigitRun;
    var t := Decimal(n) + rest;
    RunOfDigits(Decimal(n), rest);
    assert t[0] == Decimal(n)[0];
    assert t[0..] == t;
    assert t[|Decimal(n)|..] == rest;
    assert rest[0..] == rest;
    assert t[|Decimal(n)| + 0..] == rest;
  }

  lemma {:induction false} FractionThenEnd(cents: string, rest: string)
    requires cents != "" && forall i :: 0 <= i < |cents| ==> IsDigit(cents[i])
    requires EndsField(rest)
    ensures FractionLength("." + cents + rest) == Some(1 + |cents|)
    ensures ("." + cents + rest)[1 + |cents|..] == rest
  {
    var tail := "." + cents + rest;
    assert tail[1..] == cents + rest;
    RunOfDigits(cents, rest);
  }

  lemma {:induction false} Fixed2Length(h: nat, rest: string)
    requires EndsField(rest)
    ensures NumberLength(Fixed2Text(h) + rest) == Some(|Fixed2Text(h)|)
  {
    hide Decimal, DigitRun, FractionLength;
    var whole, cents := Decimal(h / 100), Cents(h);
    var t, tail := Fixed2Text(h) + rest, "." + cents + rest;
    assert t == whole + tail;
    RunOfDigits(whole, tail);
    FractionThenEnd(cents, rest);
    assert t[0] == whole[0];
    assert t[0..] == t;
    assert t[|whole|..] == tail;
    assert t[|whole| + 3..] == tail[3..];
  }

  lemma {:induction false} ReadText(s: string, rest: string, depth: nat)
    requires Plain(s)
    ensures ReadValue("\"" + s + "\"" + rest, depth) == Some(Parsed(Str(s), rest))
  {
    var t := "\"" + s + "\"" + rest;
    assert t[0] == '"';
    assert t[1..] == s + "\"" + rest;
    PlainBody(s, rest);
  }

  lemma {:induction false} ReadNumber(lexeme: string, rest: string, depth: nat)
    requires lexeme != "" && IsDigit(lexeme[0])
    requires NumberLength(lexeme + rest) == Some(|lexeme|)
    ensures ReadValue(lexeme + rest, depth) == Some(Parsed(Num(lexeme), rest))
  {
    var t := lexeme + rest;
    assert t[0] == lexeme[0];
    assert t[..|lexeme|] == lexeme;
    assert t[|lexeme|..] == rest;
  }

  lemma {:induction false} ReadFlag(b: bool, rest: string, depth: nat)
    ensures ReadValue((if b then "true" else "false") + rest, depth) == Some(Parsed(Bool(b), rest))
  {
    var word := if b then "true" else "false";
    var t := word + rest;
    assert t[0] == word[0];
    assert word <= t && t[|word|..] == rest;
  }

  lemma {:induction false} ReadHole(h: Hole, rest: string, depth: nat)
    requires PlainHole(h)
    requires EndsField(rest)
    ensures ReadValue(HoleText(h) + rest, depth) == Some(Parsed(Meaning(h), rest))
  {
    match h
    case Text(s) =>
      ReadText(s, rest, depth);
    case Fixed2(n) =>
      Fixed2Length(n, rest);
      assert Fixed2Text(n)[0] == Decimal(n / 100)[0];
      ReadNumber(Fixed2Text(n), rest, depth);
    case Integer(n) =>
      DecimalLength(n, rest);
      ReadNumber(Decimal(n), rest, depth);
    case Flag(b) =>
      ReadFlag(b, rest, depth);
  }

  // One member and what is left to read after its value.
  lemma {:induction false} ReadField(f: Field, after: string, depth: nat)
    requires Plain(f.name) && PlainHole(f.hole) && EndsField(after)
    ensures var t := FieldText(f) + after;
      && t[0] == '"'
      && StringBody(t[1..]) == Some(Parsed(f.name, ":" + HoleText(f.hole) + after))
      && (":" + HoleText(f.hole) + after)[1..] == HoleText(f.hole) + after
      && ReadValue(HoleText(f.hole) + after, depth) == Some(Parsed(Meaning(f.hole), after))
  {
    hide StringBody, ReadValue, HoleText;
    var t := FieldText(f) + after;
    var u := ":" + HoleText(f.hole) + after;
    assert t[1..] == f.name + "\"" + u by {
      assert FieldText(f) == Quote(f.name) + (":" + HoleText(f.hole));
    }
    PlainBody(f.name, u);
    ReadHole(f.hole, after, depth);
  }

  lemma {:induction false} ReadLastField(f: Field, rest: string, depth: nat)
    requires Plain(f.name) && PlainHole(f.hole)
    ensures ReadMembers(FieldText(f) + "}" + rest, depth)
         == Some(Parsed([Member(f.name, Meaning(f.hole))], rest))
  {
    hide FieldText, HoleText, ReadValue, StringBody;
    var after := "}" + rest;
    ReadField(f, after, depth);
    assert FieldText(f) + "}" + rest == FieldText(f) + after;
    assert after[1..] == rest;
  }

  lemma {:induction false} ReadNextField(f: Field, tail: string, depth: nat)
    requires Plain(f.name) && PlainHole(f.hole)
    requires ReadMembers(tail, depth).Some?
    ensures var more := ReadMembers(tail, depth).value;
      ReadMembers(FieldText(f) + "," + tail, depth)
      == Some(Parsed([Member(f.name, Meaning(f.hole))] + more.result, more.rest))
  {
    hide FieldText, HoleText, ReadValue, StringBody;
    var after := "," + tail;
    ReadField(f, after, depth);
    assert FieldText(f) + "," + tail == FieldText(f) + after;
    assert after[1..] == tail;
  }

  lemma {:induction false} Regroup(a: string, b: string, rest: string)
    ensures a + "," + b + rest == a + "," + (b + rest)
  {
  }

  lemma {:induction false} ReadFields(fs: seq<Field>, rest: string, depth: nat)
    requires fs != [] && PlainHoles(fs)
    requires forall i :: 0 <= i < |fs| ==> Plain(fs[i].name)
    ensures ReadMembers(FieldsText(fs) + rest, depth) == Some(Parsed(Meanings(fs), rest))
    decreases |fs|
  {
    assert PlainHole(fs[0].hole);
    if |fs| == 1 {
      ReadLastField(fs[0], rest, depth);
      assert Meanings(fs) == [Member(fs[0].name, Meaning(fs[0].hole))];
    } else {
      ReadFields(fs[1..], rest, depth);
      ReadNextField(fs[0], FieldsText(fs[1..]) + rest, depth);
      Regroup(FieldText(fs[0]), FieldsText(fs[1..]), rest);
    }
  }

  // ------------------------------------------------------------------
  // A text is at least as long as the shortest text of what it means
  // ------------------------------------------------------------------

  function Specials(s: string): nat {
    if s == "" then 0 else (if IsSpecial(s[0]) then 1 else 0) + Specials(s[1..])
  }

  lemma {:induction false} PlainIffNoSpecials(s: string)
    ensures Plain(s) <==> Specials(s) == 0
  {
    if s != "" {
      PlainIffNoSpecials(s[1..]);
      assert s == [s[0]] + s[1..];
      assert Plain(s) <==> !IsSpecial(s[0]) && Plain(s[1..]);
    }
  }

  function ValueCost(v: Value): nat {
    match v
    case Null => 4
    case Bool(b) => if b then 4 else 5
    case Num(lexeme) => |lexeme|
    case Str(s) => 2 + |s| + Specials(s)
    case Arr(_) => 1
    case Obj(_) => 1
  }

  // Name, quotes, colon, value, and the comma or brace after it.
  function MemberCost(name: string, v: Value): nat {
    |name| + 4 + ValueCost(v)
  }

  function MembersCost(ms: seq<Member>): nat {
    if ms == [] then 0 else MemberCost(ms[0].name, ms[0].value) + MembersCost(ms[1..])
  }

  lemma {:induction false} BodyCost(s: string)
    requires StringBody(s).Some?
    ensures var p := StringBody(s).value;
      |s| - |p.rest| >= |p.result| + Specials(p.result) + 1
    decreases |s|
  {
    if s[0] == '"' {
    } else if s[0] == '\\' {
      var c := Escape(s[1..]).value;
      BodyCost(c.rest);
      var d := StringBody(c.rest).value;
      assert ([c.result] + d.result)[1..] == d.result;
    } else {
      BodyCost(s[1..]);
      var d := StringBody(s[1..]).value;
      assert ([s[0]] + d.result)[1..] == d.result;
    }
  }

  lemma {:induction false} ValueAtLeast(s: string, depth: nat)
    requires ReadValue(s, depth).Some?
    ensures var p := ReadValue(s, depth).value;
      |s| - |p.rest| >= ValueCost(p.result)
  {
    var t := SkipSpace(s);
    if t[0] == '"' {
      BodyCost(t[1..]);
    }
  }

  lemma {:induction false} MembersAtLeast(s: string, depth: nat)
    requires ReadMembers(s, depth).Some?
    ensures var p := ReadMembers(s, depth).value;
      |s| - |p.rest| >= MembersCost(p.result)
    decreases |s|
  {
    var t := SkipSpace(s);
    BodyCost(t[1..]);
    var name := StringBody(t[1..]).value;
    var u := SkipSpace(name.rest);
    ValueAtLeast(u[1..], depth);
    var v := ReadValue(u[1..], depth).value;
    var w := SkipSpace(v.rest);
    var m := Member(name.result, v.result);
    if w[0] == '}' {
      assert MembersCost([m]) == MemberCost(m.name, m.value);
    } else {
      MembersAtLeast(w[1..], depth);
      var more := ReadMembers(w[1..], depth).value;
      assert ([m] + more.result)[1..] == more.result;
    }
  }

  // The cost of the listed names alone.
  function NamedCost(names: seq<string>, m: map<string, Value>): nat {
    if names == [] then 0
    else (if names[0] in m then MemberCost(names[0], m[names[0]]) else 0) + NamedCost(names[1..], m)
  }

  lemma {:induction false} NamedCostAdd(names: seq<string>, k: string, v: Value, m: map<string, Value>)
    requires Distinct(names)
    ensures NamedCost(names, map[k := v] + m)
         <= NamedCost(names, m) + if k in names then MemberCost(k, v) else 0
  {
    if names != [] {
      NamedCostAdd(names[1..], k, v, m);
      assert names == [names[0]] + names[1..];
      assert k in names <==> k == names[0] || k in names[1..];
    }
  }

  lemma {:induction false} NamedAtMostAll(names: seq<string>, ms: seq<Member>)
    requires Distinct(names)
    ensures NamedCost(names, AsMap(ms)) <= MembersCost(ms)
  {
    if ms == [] {
      NoCost(names);
    } else {
      NamedAtMostAll(names, ms[1..]);
      NamedCostAdd(names, ms[0].name, ms[0].value, AsMap(ms[1..]));
    }
  }

  lemma {:induction false} NoCost(names: seq<string>)
    ensures NamedCost(names, map[]) == 0
  {
    if names != [] {
      NoCost(names[1..]);
    }
  }

  // An object cannot be read from a text shorter than its members need.
  lemma {:induction false} ObjectAtLeast(s: string, names: seq<string>)
    requires FromStr(s).Some? && FromStr(s).value.Obj?
    requires Distinct(names)
    ensures |s| >= 1 + NamedCost(names, AsMap(FromStr(s).value.members))
  {
    var t := SkipSpace(s);
    var ms := FromStr(s).value.members;
    var u := SkipSpace(t[1..]);
    if u != "" && u[0] == '}' {
      NoCost(names);
    } else {
      MembersAtLeast(t[1..], MAX_DEPTH - 1);
      NamedAtMostAll(names, ms);
    }
  }

  // ------------------------------------------------------------------
  // The exact condition for a round trip
  // ------------------------------------------------------------------

  function Names(fs: seq<Field>): (ns: seq<string>)
    ensures |ns| == |fs|
    ensures forall i :: 0 <= i < |fs| ==> ns[i] == fs[i].name
  {
    if fs == [] then [] else [fs[0].name] + Names(fs[1..])
  }

  function SpecialsIn(fs: seq<Field>): nat {
    if fs == [] then 0
    else (if fs[0].hole.Text? then Specials(fs[0].hole.s) else 0) + SpecialsIn(fs[1..])
  }

  lemma {:induction false} PlainHolesIffNoSpecials(fs: seq<Field>)
    ensures PlainHoles(fs) <==> SpecialsIn(fs) == 0
  {
    if fs != [] {
      PlainHolesIffNoSpecials(fs[1..]);
      assert fs == [fs[0]] + fs[1..];
      assert PlainHoles(fs) <==> PlainHole(fs[0].hole) && PlainHoles(fs[1..]);
      if fs[0].hole.Text? {
        PlainIffNoSpecials(fs[0].hole.s);
      }
    }
  }

  // The rendered text falls short of what its meaning needs by one character for
  // every special character in a hole.
  lemma {:induction false} RenderedCost(fs: seq<Field>, m: map<string, Value>)
    requires fs != []
    requires forall i :: 0 <= i < |fs| ==>
      fs[i].name in m && ValueCost(m[fs[i].name]) >= ValueCost(Meaning(fs[i].hole))
    ensures NamedCost(Names(fs), m) >= |FieldsText(fs)| + SpecialsIn(fs)
  {
    assert Names(fs)[1..] == Names(fs[1..]);
    if |fs| == 1 {
      assert Names(fs[1..]) == [];
    } else {
      RenderedCost(fs[1..], m);
    }
  }

  lemma {:induction false} MeaningsAsMap(fs: seq<Field>, i: nat)
    requires GoodNames(fs) && i < |fs|
    ensures fs[i].name in AsMap(Meanings(fs))
    ensures AsMap(Meanings(fs))[fs[i].name] == Meaning(fs[i].hole)
  {
    LastWins(Meanings(fs), i);
  }

  lemma {:induction false} OnlyTheirNames(fs: seq<Field>, name: string)
    requires forall i :: 0 <= i < |fs| ==> fs[i].name != name
    ensures name !in AsMap(Meanings(fs))
  {
    Unnamed(Meanings(fs), name);
  }

  // Plain holes are read back exactly, member by member.
  lemma {:induction false} PlainReadsBack(fs: seq<Field>)
    requires fs != [] && PlainHoles(fs)
    requires forall i :: 0 <= i < |fs| ==> Plain(fs[i].name)
    ensures FromStr(Render(fs)) == Some(Obj(Meanings(fs)))
  {
    hide ReadMembers, Meanings;
    var t := Render(fs);
    assert t[1..] == FieldsText(fs);
    assert FieldsText(fs) + "" == FieldsText(fs);
    ReadFields(fs, "", MAX_DEPTH - 1);
    assert FieldsText(fs)[0] == '"';
    assert SkipSpace(t[1..]) == t[1..];
    assert ReadValue(t, MAX_DEPTH) == Some(Parsed(Obj(Meanings(fs)), ""));
  }

  // Whenever the reader gets values that need no fewer characters than the right ones,
  // no hole held a special character.
  lemma {:induction false} CostlyMeansPlain(fs: seq<Field>)
    requires fs != [] && GoodNames(fs)
    requires FromStr(Render(fs)).Some? && FromStr(Render(fs)).value.Obj?
    requires var m := AsMap(FromStr(Render(fs)).value.members);
      forall i :: 0 <= i < |fs| ==> fs[i].name in m && ValueCost(m[fs[i].name]) >= ValueCost(Meaning(fs[i].hole))
    ensures PlainHoles(fs)
  {
    var m := AsMap(FromStr(Render(fs)).value.members);
    ObjectAtLeast(Render(fs), Names(fs));
    RenderedCost(fs, m);
    PlainHolesIffNoSpecials(fs);
  }

  // In particular when it gets every field right.
  lemma {:induction false} RightMeansPlain(fs: seq<Field>)
    requires fs != [] && GoodNames(fs)
    requires FromStr(Render(fs)).Some? && FromStr(Render(fs)).value.Obj?
    requires var m := AsMap(FromStr(Render(fs)).value.members);
      forall i :: 0 <= i < |fs| ==> fs[i].name in m && m[fs[i].name] == Meaning(fs[i].hole)
    ensures PlainHoles(fs)
  {
    CostlyMeansPlain(fs);
  }

  // The reader recovers the fields of a template exactly when every text put into
  // it is free of quotes, backslashes and control characters.
  lemma {:induction false} RoundTripExactly(fs: seq<Field>)
    requires fs != [] && GoodNames(fs)
    ensures FromStr(Render(fs)) == Some(Obj(Meanings(fs))) <==> PlainHoles(fs)
  {
    if PlainHoles(fs) {
      PlainReadsBack(fs);
    }
    if FromStr(Render(fs)) == Some(Obj(Meanings(fs))) {
      forall i | 0 <= i < |fs|
        ensures fs[i].name in AsMap(Meanings(fs)) && AsMap(Meanings(fs))[fs[i].name] == Meaning(fs[i].hole)
      {
        MeaningsAsMap(fs, i);
      }
      RightMeansPlain(fs);
    }
  }

  // ------------------------------------------------------------------
  // Numbers
  // ------------------------------------------------------------------

  lemma {:induction false} DecimalValue(n: nat)
    ensures DigitsValue(Decimal(n)) == n
  {
    var d := Decimal(n);
    if n < 10 {
      assert d[..0] == "";
    } else {
      DecimalValue(n / 10);
      assert d[..|d| - 1] == Decimal(n / 10);
    }
  }

  // No digits denote a number in fewer places than its decimal form.
  lemma {:induction false} DecimalIsShortest(ds: string)
    requires ds != "" && forall i :: 0 <= i < |ds| ==> IsDigit(ds[i])
    ensures |Decimal(DigitsValue(ds))| <= |ds|
  {
    if |ds| > 1 {
      DecimalIsShortest(ds[..|ds| - 1]);
      assert DigitsValue(ds) / 10 == DigitsValue(ds[..|ds| - 1]);
    } else {
      assert ds[..0] == "";
    }
  }

  lemma {:induction false} CentsValue(h: nat)
    ensures DigitsValue(Cents(h)) == h % 100
  {
    var c := Cents(h);
    assert c[..1][..0] == "";
    assert DigitsValue(c[..1]) == h / 10 % 10;
    assert c[..|c| - 1] == c[..1];
    assert h % 100 == h / 10 % 10 * 10 + h % 10;
  }

  // `%.2f` of a number of hundredths denotes that number.
  lemma {:induction false} Fixed2Value(h: nat)
    ensures NumberLength(Fixed2Text(h)) == Some(|Fixed2Text(h)|)
    ensures NumberValue(Fixed2Text(h)) == h as real / 100.0
  {
    var whole, cents, t := Decimal(h / 100), Cents(h), Fixed2Text(h);
    RunOfDigits(whole, "." + cents);
    RunOfDigits(cents, "");
    assert cents + "" == cents;
    assert t == whole + ("." + cents);
    assert t[0] == whole[0];
    assert t[0..] == t && t[..|whole|] == whole;
    var tail := "." + cents;
    assert t[|whole|..] == tail;
    assert tail[1..] == cents;
    assert tail[1..3] == cents;
    assert t[|whole| + 3..] == "";
    DecimalValue(h / 100);
    CentsValue(h);
    assert Power10(2) == 100.0 by {
      assert Power10(1) == 10.0;
    }
  }
}
