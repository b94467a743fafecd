// What the reader can make of a template whose texts hold no quotation mark, though they
// may hold backslashes and control characters: nothing at all, or the right names with
// the right values in every other hole.
module QuoteFree {
  import opened Options
  import opened Json
  import opened JsonTemplate

  predicate NoQuote(s: string) {
    forall i :: 0 <= i < |s| ==> s[i] != '"'
  }

  predicate QuoteFreeHole(h: Hole) {
    h.Text? ==> NoQuote(h.s)
  }

  ghost predicate QuoteFreeHoles(fs: seq<Field>) {
    forall i :: 0 <= i < |fs| ==> QuoteFreeHole(fs[i].hole)
  }

  ghost predicate Lettered(fs: seq<Field>) {
    forall i :: 0 <= i < |fs| ==> fs[i].name != "" && 'a' <= fs[i].name[0] <= 'z'
  }

  // ------------------------------------------------------------------
  // Strings
  // ------------------------------------------------------------------

  lemma {:induction false} HexWithin(e: string, after: string)
    ensures Hex4(e + "\"" + after).Some? ==> |e| >= 4
  {
    var t := e + "\"" + after;
    if |e| < 4 {
      assert t[|e|] == '"' && HexDigit(t[|e|]).None?;
    }
  }

  lemma {:induction false} UnicodeWithin(e: string, after: string) returns (k: nat)
    requires e != "" && e[0] == 'u' && NoQuote(e) && Escape(e + "\"" + after).Some?
    ensures 0 < k <= |e| && Escape(e + "\"" + after).value.rest == (e + "\"" + after)[k..]
  {
    var t := e + "\"" + after;
    assert t[1..] == e[1..] + "\"" + after;
    HexWithin(e[1..], after);
    assert |e| >= 5;
    var hi := Hex4(t[1..]);
    if 0xD800 <= hi.value < 0xDC00 {
      assert t[5] == '\\' && t[6] == 'u' && Hex4(t[7..]).Some?;
      hide Escape, Hex4;
      assert |e| >= 7;
      assert t[7..] == e[7..] + "\"" + after;
      HexWithin(e[7..], after);
    }
    k := if 0xD800 <= hi.value < 0xDC00 then 11 else 5;
  }

  // An escape cannot reach beyond the text it started in.
  lemma {:induction false} EscapeWithin(e: string, after: string) returns (k: nat)
    requires e != "" && NoQuote(e) && Escape(e + "\"" + after).Some?
    ensures 0 < k <= |e| && Escape(e + "\"" + after).value.rest == e[k..] + "\"" + after
  {
    var t := e + "\"" + after;
    assert t[0] == e[0];
    if e[0] != 'u' {
      k := 1;
    } else {
      k := UnicodeWithin(e, after);
    }
    hide Escape, Hex4;
    assert t[k..] == e[k..] + "\"" + after;
  }

  // A literal ends at the quotation mark meant for it, or, when a last backslash hides
  // that one, at the first one of what follows.
  lemma {:induction false} BodyEnds(s: string, after: string)
    requires NoQuote(s) && StringBody(s + "\"" + after).Some?
    ensures var rest := StringBody(s + "\"" + after).value.rest;
      rest == after || (StringBody(after).Some? && rest == StringBody(after).value.rest)
    decreases |s|
  {
    var t := s + "\"" + after;
    if s == "" {
      assert t[1..] == after;
    } else {
      assert t[0] == s[0] && t[1..] == s[1..] + "\"" + after;
      if s[0] == '\\' {
        EscapedBody(s[1..], after);
      } else {
        BodyEnds(s[1..], after);
      }
    }
  }

  lemma {:induction false} EscapedBody(e: string, after: string)
    requires NoQuote(e) && Escape(e + "\"" + after).Some?
    requires StringBody(Escape(e + "\"" + after).value.rest).Some?
    ensures var rest := StringBody(Escape(e + "\"" + after).value.rest).value.rest;
      rest == after || (StringBody(after).Some? && rest == StringBody(after).value.rest)
    decreases |e|
  {
    if e == "" {
      assert (e + "\"" + after)[1..] == after;
    } else {
      var k := EscapeWithin(e, after);
      BodyEnds(e[k..], after);
    }
  }

  // ------------------------------------------------------------------
  // Members
  // ------------------------------------------------------------------

  // No member list goes on from here.
  predicate Stuck(rest: string) {
    var w := SkipSpace(rest);
    w == "" || (w[0] != ',' && w[0] != '}')
  }

  predicate Derails(after: string) {
    StringBody(after).Some? ==> Stuck(StringBody(after).value.rest)
  }

  lemma {:induction false} BraceDerails()
    ensures Derails("}")
  {
    assert "}"[1..] == "";
  }

  lemma {:induction false} CommaDerails(fs: seq<Field>)
    requires fs != [] && Lettered(fs)
    ensures Derails("," + FieldsText(fs))
  {
    var t := "," + FieldsText(fs);
    assert FieldsText(fs)[0] == '"' && FieldsText(fs)[1] == fs[0].name[0];
    hide FieldsText;
    assert t[1..] == FieldsText(fs);
    assert StringBody(t) == Some(Parsed([','] + "", t[2..])) by {
      assert StringBody(t[1..]) == Some(Parsed("", t[1..][1..]));
      assert t[1..][1..] == t[2..];
    }
    assert SkipSpace(t[2..]) == t[2..];
  }

  lemma {:induction false} TextReads(s: string, after: string, depth: nat)
    requires NoQuote(s) && Derails(after)
    requires ReadValue("\"" + s + "\"" + after, depth).Some?
    ensures var p := ReadValue("\"" + s + "\"" + after, depth).value;
      Stuck(p.rest) || p.rest == after
  {
    var t := "\"" + s + "\"" + after;
    hide Stuck, NoQuote, StringBody;
    assert t[0] == '"' && t[1..] == s + "\"" + after;
    BodyEnds(s, after);
  }

  // The value in a hole is read up to its end, or the reading is stuck.
  lemma {:induction false} HoleReads(h: Hole, after: string, depth: nat)
    requires QuoteFreeHole(h) && EndsField(after) && Derails(after)
    requires ReadValue(HoleText(h) + after, depth).Some?
    ensures var p := ReadValue(HoleText(h) + after, depth).value;
      || Stuck(p.rest)
      || (p.rest == after && (PlainHole(h) ==> p.result == Meaning(h)))
  {
    hide ReadValue, Stuck, Derails, EndsField, Meaning, NoQuote, Plain, Decimal, Fixed2Text;
    if PlainHole(h) {
      hide HoleText, PlainHole;
      ReadHole(h, after, depth);
    } else {
      TextReads(h.s, after, depth);
    }
  }

  lemma {:induction false} NameReads(f: Field, after: string)
    requires Plain(f.name)
    ensures var t := FieldText(f) + after;
      && t[0] == '"'
      && StringBody(t[1..]) == Some(Parsed(f.name, ":" + HoleText(f.hole) + after))
      && (":" + HoleText(f.hole) + after)[1..] == HoleText(f.hole) + after
  {
    hide HoleText;
    var t := FieldText(f) + after;
    var u := ":" + HoleText(f.hole) + after;
    assert t[1..] == f.name + "\"" + u by {
      assert FieldText(f) == Quote(f.name) + (":" + HoleText(f.hole));
    }
    PlainBody(f.name, u);
  }

  // The members read have the names of the fields, and the values of the plain ones.
  ghost predicate Alike(fs: seq<Field>, ms: seq<Member>) {
    && |ms| == |fs|
    && forall i :: 0 <= i < |fs| ==> AlikeAt(fs[i], ms[i])
  }

  predicate AlikeAt(f: Field, m: Member) {
    m.name == f.name && (PlainHole(f.hole) ==> m.value == Meaning(f.hole))
  }

  // Reading the member in front: the list goes on after it, or there is none.
  lemma {:induction false} FieldReads(f: Field, after: string, depth: nat)
    requires Plain(f.name) && QuoteFreeHole(f.hole) && EndsField(after) && Derails(after)
    requires ReadMembers(FieldText(f) + after, depth).Some?
    ensures var p := ReadMembers(FieldText(f) + after, depth).value;
      && p.result != [] && AlikeAt(f, p.result[0])
      && (after[0] == '}' ==> |p.result| == 1 && p.rest == after[1..])
      && (after[0] == ',' ==> ReadMembers(after[1..], depth) == Some(Parsed(p.result[1..], p.rest)))
  {
    hide StringBody, ReadValue, HoleText, FieldText, Meaning, Derails, QuoteFreeHole, PlainHole, Plain;
    NameReads(f, after);
    var t := FieldText(f) + after;
    var u := ":" + HoleText(f.hole) + after;
    assert SkipSpace(t) == t && SkipSpace(u) == u;
    HoleReads(f.hole, after, depth);
    var v := ReadValue(HoleText(f.hole) + after, depth).value;
    assert !Stuck(v.rest);
    assert SkipSpace(after) == after;
  }

  lemma {:induction false} QuoteFreeReads(fs: seq<Field>, depth: nat)
    requires fs != [] && Lettered(fs) && QuoteFreeHoles(fs)
    requires forall i :: 0 <= i < |fs| ==> Plain(fs[i].name)
    requires ReadMembers(FieldsText(fs), depth).Some?
    ensures Alike(fs, ReadMembers(FieldsText(fs), depth).value.result)
    decreases |fs|
  {
    hide FieldText, ReadMembers, Plain, Derails, AlikeAt;
    var ms := ReadMembers(FieldsText(fs), depth).value.result;
    if |fs| == 1 {
      BraceDerails();
      FieldReads(fs[0], "}", depth);
    } else {
      var after := "," + FieldsText(fs[1..]);
      CommaDerails(fs[1..]);
      assert FieldsText(fs) == FieldText(fs[0]) + after;
      FieldReads(fs[0], after, depth);
      assert after[1..] == FieldsText(fs[1..]);
      QuoteFreeReads(fs[1..], depth);
      assert forall i :: 1 <= i < |fs| ==> fs[i] == fs[1..][i - 1] && ms[i] == ms[1..][i - 1];
    }
  }

  // A template without quotation marks is refused, or read as an object with its own
  // names, in order, and the right value in every plain hole.
  lemma {:induction false} QuoteFreeObject(fs: seq<Field>)
    requires fs != [] && Lettered(fs) && QuoteFreeHoles(fs) && GoodNames(fs)
    requires FromStr(Render(fs)).Some?
    ensures FromStr(Render(fs)).value.Obj? && Alike(fs, FromStr(Render(fs)).value.members)
  {
    var t := Render(fs);
    assert t[1..] == FieldsText(fs);
    assert FieldsText(fs)[0] == '"';
    hide FieldsText, ReadMembers;
    assert SkipSpace(t[1..]) == t[1..];
    QuoteFreeReads(fs, MAX_DEPTH - 1);
  }

  lemma {:induction false} PlainFieldKept(fs: seq<Field>, ms: seq<Member>, i: nat)
    requires GoodNames(fs) && Alike(fs, ms) && i < |fs| && PlainHole(fs[i].hole)
    ensures fs[i].name in AsMap(ms) && AsMap(ms)[fs[i].name] == Meaning(fs[i].hole)
  {
    assert AlikeAt(fs[i], ms[i]);
    forall j | i < j < |ms|
      ensures ms[j].name != ms[i].name
    {
      assert AlikeAt(fs[j], ms[j]);
    }
    LastWins(ms, i);
  }
}
