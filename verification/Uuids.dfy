// 128-bit identifiers and their text forms (section 4 of RFC 9562).
module Uuids {
  import opened Options
  import Json

  // Thirty-two hexadecimal digits, most significant first.
  type Uuid = u: seq<int> | |u| == 32 && forall i :: 0 <= i < 32 ==> 0 <= u[i] < 16
    witness seq(32, i => 0)

  function HexChar(d: int): char
    requires 0 <= d < 16
  {
    if d < 10 then ('0' as int + d) as char else ('a' as int + (d - 10)) as char
  }

  // Upper- and lower-case digits are both read.
  function Nibbles(s: string): (r: Option<seq<int>>)
    ensures r.Some? ==> |r.value| == |s| && forall i :: 0 <= i < |s| ==> 0 <= r.value[i] < 16
  {
    if s == "" then Some([])
    else
      var d :- Json.HexDigit(s[0]);
      var ds :- Nibbles(s[1..]);
      Some([d] + ds)
  }

  function HexText(ds: seq<int>): (s: string)
    requires forall i :: 0 <= i < |ds| ==> 0 <= ds[i] < 16
    ensures |s| == |ds|
    ensures forall i :: 0 <= i < |s| ==> s[i] == HexChar(ds[i])
  {
    seq(|ds|, i requires 0 <= i < |ds| => HexChar(ds[i]))
  }

  // The canonical form, the only one either side writes.
  function Print(u: Uuid): (s: string)
    ensures |s| == 36
  {
    var h := HexText(u);
    h[..8] + "-" + h[8..12] + "-" + h[12..16] + "-" + h[16..20] + "-" + h[20..]
  }

  function ParseSimple(s: string): Option<Uuid>
    requires |s| == 32
  {
    var ds :- Nibbles(s);
    Some(ds)
  }

  function ParseHyphenated(s: string): Option<Uuid>
    requires |s| == 36
  {
    if s[8] == '-' && s[13] == '-' && s[18] == '-' && s[23] == '-'
    then ParseSimple(s[..8] + s[9..13] + s[14..18] + s[19..23] + s[24..])
    else None
  }

  const URN := "urn:uuid:"

  // The relay's reader: plain, hyphenated, braced or as a URN.
  function Parse(s: string): Option<Uuid> {
    if |s| == 32 then ParseSimple(s)
    else if |s| == 36 then ParseHyphenated(s)
    else if |s| == 38 && s[0] == '{' && s[37] == '}' then ParseHyphenated(s[1..37])
    else if |s| == 45 && s[..9] == URN then ParseHyphenated(s[9..])
    else None
  }

  lemma {:induction false} HexTextReadsBack(ds: seq<int>)
    requires forall i :: 0 <= i < |ds| ==> 0 <= ds[i] < 16
    ensures Nibbles(HexText(ds)) == Some(ds)
  {
    if ds != [] {
      HexTextReadsBack(ds[1..]);
      assert HexText(ds)[1..] == HexText(ds[1..]);
      assert Json.HexDigit(HexChar(ds[0])) == Some(ds[0]);
      assert [ds[0]] + ds[1..] == ds;
    }
  }

  lemma {:induction false} PrintReadsBack(u: Uuid)
    ensures Parse(Print(u)) == Some(u)
  {
    var h, s := HexText(u), Print(u);
    assert s[..8] == h[..8] && s[9..13] == h[8..12] && s[14..18] == h[12..16];
    assert s[19..23] == h[16..20] && s[24..] == h[20..];
    assert h[..8] + h[8..12] + h[12..16] + h[16..20] + h[20..] == h;
    HexTextReadsBack(u);
  }

  // So comparing printed forms compares identifiers.
  lemma {:induction false} SamePrint(u: Uuid, v: Uuid)
    ensures Print(u) == Print(v) <==> u == v
  {
    PrintReadsBack(u);
    PrintReadsBack(v);
  }

  // The other forms are read as well.
  lemma {:induction false} AllFormsRead(u: Uuid)
    ensures Parse(HexText(u)) == Some(u)
    ensures Parse("{" + Print(u) + "}") == Some(u)
    ensures Parse("urn:uuid:" + Print(u)) == Some(u)
  {
    HexTextReadsBack(u);
    PrintReadsBack(u);
    var p := Print(u);
    hide Print, ParseHyphenated, ParseSimple;
    assert ("{" + p + "}")[1..37] == p;
    assert ("urn:uuid:" + p)[..9] == "urn:uuid:" && ("urn:uuid:" + p)[9..] == p;
    assert ParseHyphenated(p) == Some(u);
    HexForm(u);
  }

  lemma {:induction false} HexForm(u: Uuid)
    ensures Parse(HexText(u)) == Some(u)
  {
    HexTextReadsBack(u);
  }

  lemma {:induction false} PrintCharacters(u: Uuid)
    ensures forall c :: c in Print(u) ==> '0' <= c <= '9' || 'a' <= c <= 'f' || c == '-'
    ensures Json.Plain(Print(u))
    ensures ':' !in Print(u)
  {
    var h := HexText(u);
    assert forall i :: 0 <= i < 32 ==> '0' <= h[i] <= '9' || 'a' <= h[i] <= 'f';
    forall i | 0 <= i < 36
      ensures '0' <= Print(u)[i] <= '9' || 'a' <= Print(u)[i] <= 'f' || Print(u)[i] == '-'
    {
    }
  }
}
