// File names made safe for object keys. Lengths are in UTF-8 bytes, and cutting inside
// a character aborts. Which characters outside ASCII are alphanumeric is a parameter.
module Filenames {
  import opened Uuids

  datatype Sanitized = Name(name: string) | Panics

  const MAX_BYTES: nat := 200

  function CharBytes(c: char): nat {
    if c < '\U{80}' then 1 else if c < '\U{800}' then 2 else if c < '\U{10000}' then 3 else 4
  }

  function Bytes(s: string): nat {
    if s == "" then 0 else CharBytes(s[0]) + Bytes(s[1..])
  }

  predicate IsAlphanumeric(c: char, unicode: char -> bool) {
    if c < '\U{80}' then '0' <= c <= '9' || 'a' <= c <= 'z' || 'A' <= c <= 'Z' else unicode(c)
  }

  function CleanChar(c: char, unicode: char -> bool): char {
    if IsAlphanumeric(c, unicode) || c == '.' || c == '-' then c else '_'
  }

  function Clean(s: string, unicode: char -> bool): (r: string)
    ensures |r| == |s| && forall i :: 0 <= i < |s| ==> r[i] == CleanChar(s[i], unicode)
  {
    if s == "" then "" else [CleanChar(s[0], unicode)] + Clean(s[1..], unicode)
  }

  predicate IsLead(c: char) {
    c == '.' || c == '-' || c == '_'
  }

  function TrimStart(s: string): (r: string)
    ensures r != "" ==> !IsLead(r[0])
    ensures |r| <= |s| && r == s[|s| - |r|..]
  {
    if s != "" && IsLead(s[0]) then TrimStart(s[1..]) else s
  }

  // The first n bytes, unless that splits a character.
  function Cut(s: string, n: nat): (r: Sanitized)
    requires n <= Bytes(s)
    ensures r.Name? ==> r.name <= s && Bytes(r.name) == n
  {
    if n == 0 then Name("")
    else if CharBytes(s[0]) > n then Panics
    else
      match Cut(s[1..], n - CharBytes(s[0]))
      case Panics => Panics
      case Name(rest) =>
        assert ([s[0]] + rest)[1..] == rest;
        Name([s[0]] + rest)
  }

  // The cleaned name without its leading dots, dashes and underscores.
  function Base(name: string, unicode: char -> bool): string {
    TrimStart(Clean(name, unicode))
  }

  function Sanitize(name: string, unicode: char -> bool): Sanitized {
    var base := Base(name, unicode);
    if Bytes(base) > MAX_BYTES then Cut(base, MAX_BYTES)
    else if base == "" then Name("file")
    else Name(base)
  }

  // ------------------------------------------------------------------

  predicate IsSafe(c: char, unicode: char -> bool) {
    IsAlphanumeric(c, unicode) || IsLead(c)
  }

  ghost predicate GoodName(s: string, unicode: char -> bool) {
    && s != "" && Bytes(s) <= MAX_BYTES && !IsLead(s[0])
    && forall i :: 0 <= i < |s| ==> IsSafe(s[i], unicode)
  }

  lemma {:induction false} SafeIsClean(s: string, unicode: char -> bool)
    requires forall i :: 0 <= i < |s| ==> IsSafe(s[i], unicode)
    ensures Clean(s, unicode) == s
  {
    assert forall i :: 0 <= i < |s| ==> Clean(s, unicode)[i] == s[i];
  }

  lemma {:induction false} BaseIsSafe(name: string, unicode: char -> bool)
    ensures forall i :: 0 <= i < |Base(name, unicode)| ==> IsSafe(Base(name, unicode)[i], unicode)
  {
    var c, b := Clean(name, unicode), Base(name, unicode);
    assert forall i :: 0 <= i < |b| ==> b[i] == c[|c| - |b| + i];
  }

  lemma {:induction false} CutIsGood(name: string, unicode: char -> bool)
    requires Bytes(Base(name, unicode)) > MAX_BYTES && Cut(Base(name, unicode), MAX_BYTES).Name?
    ensures GoodName(Cut(Base(name, unicode), MAX_BYTES).name, unicode)
  {
    BaseIsSafe(name, unicode);
    var b := Base(name, unicode);
    assert b != "" && !IsLead(b[0]);
    hide Base, Clean, TrimStart, Cut, IsSafe;
    var s := Cut(b, MAX_BYTES).name;
    assert s <= b && s != "";
    assert s[0] == b[0];
  }

  lemma {:induction false} FileIsGood(unicode: char -> bool)
    ensures GoodName("file", unicode)
  {
    AsciiBytes("file");
  }

  lemma {:induction false} SanitizeKeepsGood(s: string, unicode: char -> bool)
    requires GoodName(s, unicode)
    ensures Sanitize(s, unicode) == Name(s)
  {
    hide Cut, Bytes, IsSafe;
    SafeIsClean(s, unicode);
    hide Clean;
    assert TrimStart(s) == s;
  }

  // Every name that comes out is safe, and sanitising it again changes nothing.
  lemma {:induction false} SanitizedIsGood(name: string, unicode: char -> bool)
    requires Sanitize(name, unicode).Name?
    ensures var s := Sanitize(name, unicode).name;
      GoodName(s, unicode) && Sanitize(s, unicode) == Name(s)
  {
    var b := Base(name, unicode);
    if Bytes(b) > MAX_BYTES {
      CutIsGood(name, unicode);
    } else {
      FileIsGood(unicode);
      BaseIsSafe(name, unicode);
    }
    var s := Sanitize(name, unicode).name;
    assert GoodName(s, unicode) by {
      hide Cut, Bytes, Clean, IsSafe;
    }
    hide *;
    SanitizeKeepsGood(s, unicode);
  }

  // A name is left alone exactly when it is already safe.
  lemma {:induction false} UnchangedExactly(name: string, unicode: char -> bool)
    ensures Sanitize(name, unicode) == Name(name) <==> GoodName(name, unicode)
  {
    hide Sanitize, GoodName;
    if GoodName(name, unicode) {
      SanitizeKeepsGood(name, unicode);
    }
    if Sanitize(name, unicode) == Name(name) {
      SanitizedIsGood(name, unicode);
    }
  }

  lemma {:induction false} TrimmedPart(s: string)
    ensures forall i :: 0 <= i < |s| - |TrimStart(s)| ==> IsLead(s[i])
  {
    if s != "" && IsLead(s[0]) {
      TrimmedPart(s[1..]);
    }
  }

  lemma {:induction false} BaseIsTheRest(name: string, unicode: char -> bool)
    ensures var b, from := Base(name, unicode), |name| - |Base(name, unicode)|;
      && 0 <= from
      && (forall i :: 0 <= i < from ==> IsLead(CleanChar(name[i], unicode)))
      && forall i :: 0 <= i < |b| ==> b[i] == CleanChar(name[from + i], unicode)
  {
    var c, b := Clean(name, unicode), Base(name, unicode);
    TrimmedPart(c);
    hide CleanChar, IsLead, Clean, TrimStart;
    assert forall i :: 0 <= i < |b| ==> b[i] == c[|c| - |b| + i];
    assert forall i :: 0 <= i < |c| - |b| ==> IsLead(c[i]);
  }

  // What is left of the base: all of it, or its first 200 bytes.
  lemma {:induction false} SanitizedBase(name: string, unicode: char -> bool)
    requires Sanitize(name, unicode).Name?
    ensures var b, s := Base(name, unicode), Sanitize(name, unicode).name;
      && (b == "" ==> s == "file")
      && (b != "" ==> s <= b && (|s| < |b| ==> Bytes(s) == MAX_BYTES))
  {
    hide Base, CharBytes;
    if Base(name, unicode) == "" {
      assert Bytes(Base(name, unicode)) == 0;
    }
    hide Bytes, Cut;
  }

  // Character by character the name is kept or replaced, from the first character that
  // may lead on: to the end, or for exactly 200 bytes.
  lemma {:induction false} SanitizedIsTheRest(name: string, unicode: char -> bool) returns (from: nat)
    requires Sanitize(name, unicode).Name?
    ensures var s := Sanitize(name, unicode).name;
      && from <= |name|
      && (forall i :: 0 <= i < from ==> IsLead(CleanChar(name[i], unicode)))
      && (from == |name| ==> s == "file")
      && (from < |name| ==>
            && |s| <= |name| - from
            && (forall i :: 0 <= i < |s| ==> s[i] == CleanChar(name[from + i], unicode))
            && (|s| < |name| - from ==> Bytes(s) == MAX_BYTES))
  {
    hide Sanitize, Base, CleanChar, IsLead, Bytes;
    BaseIsTheRest(name, unicode);
    SanitizedBase(name, unicode);
    from := |name| - |Base(name, unicode)|;
  }

  // A letter or a digit, by its number.
  predicate LetterOrDigit(c: char, unicode: char -> bool) {
    if c as int < 128 then 48 <= c as int <= 57 || 65 <= c as int <= 90 || 97 <= c as int <= 122 else unicode(c)
  }

  lemma {:induction false} BaseStarts(name: string, unicode: char -> bool)
    requires Base(name, unicode) != ""
    ensures LetterOrDigit(name[|name| - |Base(name, unicode)|], unicode)
  {
    BaseIsTheRest(name, unicode);
    var b := Base(name, unicode);
    assert !IsLead(b[0]);
    hide Base;
    assert b[0] == CleanChar(name[|name| - |b|], unicode);
  }

  // Letters, digits, dots and dashes stay, everything else becomes an underscore.
  function Replaced(c: char, unicode: char -> bool): char {
    if LetterOrDigit(c, unicode) || c == '.' || c == '-' then c else '_'
  }

  lemma {:induction false} CleanCharExactly(c: char, unicode: char -> bool)
    ensures CleanChar(c, unicode) == Replaced(c, unicode)
    ensures IsLead(CleanChar(c, unicode)) <==> !LetterOrDigit(c, unicode)
  {
  }

  // The same without the function's own notions: what comes before the first letter or
  // digit is dropped, the rest replaced character by character, and cut at 200 bytes.
  lemma {:induction false} SanitizedSpelledOut(name: string, unicode: char -> bool) returns (from: nat)
    requires Sanitize(name, unicode).Name?
    ensures var s := Sanitize(name, unicode).name;
      && from <= |name|
      && (forall i :: 0 <= i < from ==> !LetterOrDigit(name[i], unicode))
      && (from == |name| ==> s == "file")
      && (from < |name| ==>
            && LetterOrDigit(name[from], unicode)
            && |s| <= |name| - from
            && (forall i :: 0 <= i < |s| ==> s[i] == Replaced(name[from + i], unicode))
            && Bytes(s) <= 200 && (|s| < |name| - from ==> Bytes(s) == 200))
  {
    hide Sanitize, Base, CleanChar, IsLead, Bytes, LetterOrDigit, Replaced, IsSafe;
    assert Bytes(Sanitize(name, unicode).name) <= 200 by {
      SanitizedIsGood(name, unicode);
    }
    BaseIsTheRest(name, unicode);
    from := |name| - |Base(name, unicode)|;
    forall i | 0 <= i < |name|
      ensures CleanChar(name[i], unicode) == Replaced(name[i], unicode)
      ensures IsLead(CleanChar(name[i], unicode)) <==> !LetterOrDigit(name[i], unicode)
    {
      CleanCharExactly(name[i], unicode);
    }
    SanitizedBase(name, unicode);
    if from < |name| {
      BaseStarts(name, unicode);
    }
  }

  // Cutting succeeds exactly at the end of some character.
  lemma {:induction false} CutAtBoundary(s: string, n: nat)
    requires n <= Bytes(s)
    ensures Cut(s, n).Name? <==> exists k :: 0 <= k <= |s| && Bytes(s[..k]) == n
  {
    if n == 0 {
      assert Bytes(s[..0]) == 0;
    } else if CharBytes(s[0]) > n {
      forall k | 0 <= k <= |s|
        ensures Bytes(s[..k]) != n
      {
        if k > 0 {
          assert s[..k][0] == s[0];
        }
      }
    } else {
      var m := n - CharBytes(s[0]);
      CutAtBoundary(s[1..], m);
      if k :| 0 <= k <= |s[1..]| && Bytes(s[1..][..k]) == m {
        assert s[..k + 1][1..] == s[1..][..k];
        assert Bytes(s[..k + 1]) == n;
      }
      if k :| 0 <= k <= |s| && Bytes(s[..k]) == n {
        assert k > 0 && s[..k][1..] == s[1..][..k - 1];
        assert Bytes(s[1..][..k - 1]) == m;
      }
    }
  }

  // The handler aborts exactly on names whose 200th byte falls inside a character.
  lemma {:induction false} PanicsExactly(name: string, unicode: char -> bool)
    ensures var b := Base(name, unicode);
      Sanitize(name, unicode).Panics?
      <==> Bytes(b) > MAX_BYTES && forall k :: 0 <= k <= |b| ==> Bytes(b[..k]) != MAX_BYTES
  {
    var b := Base(name, unicode);
    if Bytes(b) > MAX_BYTES {
      CutAtBoundary(b, MAX_BYTES);
    }
  }

  // The handler does abort: 199 letters and a two-byte one.
  lemma {:induction false} AbortHappens(unicode: char -> bool)
    requires unicode('\U{E9}')
    ensures Sanitize(seq(MAX_BYTES - 1, i => 'a') + "\U{E9}", unicode).Panics?
  {
    var stem := seq(MAX_BYTES - 1, i => 'a');
    var name := stem + "\U{E9}";
    AsciiBytes(stem);
    BytesAppend(stem, "\U{E9}");
    assert Bytes("\U{E9}") == 2 by {
      assert "\U{E9}"[1..] == "";
    }
    GoodCharacters(name, unicode);
    assert Base(name, unicode) == name;
    forall k | 0 <= k <= |name|
      ensures Bytes(name[..k]) != MAX_BYTES
    {
      if k < |name| {
        assert name[..k] == stem[..k];
        AsciiBytes(stem[..k]);
      } else {
        assert name[..k] == name;
      }
    }
    hide Base, Clean, Cut, Bytes, Sanitize;
    PanicsExactly(name, unicode);
  }

  lemma {:induction false} GoodCharacters(s: string, unicode: char -> bool)
    requires s != "" && !IsLead(s[0]) && forall i :: 0 <= i < |s| ==> IsSafe(s[i], unicode)
    ensures Base(s, unicode) == s
  {
    SafeIsClean(s, unicode);
  }

  lemma {:induction false} AsciiBytes(s: string)
    requires forall i :: 0 <= i < |s| ==> s[i] < '\U{80}'
    ensures Bytes(s) == |s|
  {
    if s != "" {
      AsciiBytes(s[1..]);
    }
  }

  lemma {:induction false} BytesAppend(a: string, b: string)
    ensures Bytes(a + b) == Bytes(a) + Bytes(b)
  {
    if a == "" {
      assert a + b == b;
    } else {
      assert (a + b)[1..] == a[1..] + b;
      BytesAppend(a[1..], b);
    }
  }

  // ------------------------------------------------------------------
  // Extensions
  // ------------------------------------------------------------------

  ghost predicate IsExtension(ext: string) {
    && ext != ""
    && forall i :: 0 <= i < |ext| ==> ext[i] < '\U{80}' && IsAlphanumeric(ext[i], c => false)
  }

  // Something of the name before the extension survives the trim.
  ghost predicate HasLeading(stem: string, unicode: char -> bool) {
    exists i :: 0 <= i < |stem| && !IsLead(CleanChar(stem[i], unicode))
  }

  lemma {:induction false} TrimKeepsTail(s: string, tail: string)
    ensures TrimStart(s + tail) == if TrimStart(s) != "" then TrimStart(s) + tail else TrimStart(tail)
  {
    if s == "" {
      assert s + tail == tail;
    } else if IsLead(s[0]) {
      assert (s + tail)[1..] == s[1..] + tail;
      TrimKeepsTail(s[1..], tail);
    }
  }

  lemma {:induction false} SomethingLeft(s: string)
    ensures TrimStart(s) != "" <==> exists i :: 0 <= i < |s| && !IsLead(s[i])
  {
    TrimmedPart(s);
    if TrimStart(s) != "" {
      assert !IsLead(s[|s| - |TrimStart(s)|]);
    }
  }

  lemma {:induction false} CleanAppend(a: string, b: string, unicode: char -> bool)
    ensures Clean(a + b, unicode) == Clean(a, unicode) + Clean(b, unicode)
  {
  }

  lemma {:induction false} LeadingMeansBase(stem: string, unicode: char -> bool)
    ensures HasLeading(stem, unicode) <==> Base(stem, unicode) != ""
  {
    var c := Clean(stem, unicode);
    SomethingLeft(c);
    hide Clean, TrimStart, IsLead;
    assert forall i :: 0 <= i < |stem| ==> c[i] == CleanChar(stem[i], unicode);
  }

  lemma {:induction false} ExtensionIsSafe(ext: string, unicode: char -> bool)
    requires IsExtension(ext)
    ensures ext != "" && !IsLead(ext[0])
    ensures forall i :: 0 <= i < |ext| ==> IsSafe(ext[i], unicode)
  {
  }

  lemma {:induction false} ExtensionIsClean(ext: string, unicode: char -> bool)
    requires IsExtension(ext)
    ensures Clean("." + ext, unicode) == "." + ext
    ensures TrimStart("." + ext) == ext
  {
    ExtensionIsSafe(ext, unicode);
    var tail := "." + ext;
    assert IsSafe('.', unicode) && IsLead('.');
    hide IsExtension, IsSafe, IsLead, IsAlphanumeric, Clean;
    assert forall i :: 0 <= i < |tail| ==> IsSafe(tail[i], unicode);
    SafeIsClean(tail, unicode);
    assert tail[1..] == ext;
    assert TrimStart(ext) == ext;
  }

  lemma {:induction false} BaseOfTail(stem: string, tail: string, unicode: char -> bool)
    requires Clean(tail, unicode) == tail
    ensures Base(stem + tail, unicode)
         == if HasLeading(stem, unicode) then Base(stem, unicode) + tail else TrimStart(tail)
  {
    hide Clean, TrimStart, HasLeading;
    LeadingMeansBase(stem, unicode);
    CleanAppend(stem, tail, unicode);
    TrimKeepsTail(Clean(stem, unicode), tail);
  }

  lemma {:induction false} Regroup(a: string, b: string, c: string)
    ensures a + b + c == a + (b + c)
  {
  }

  // The two shapes of a cleaned and trimmed name: with its extension, or the bare letters
  // of the extension when nothing before it survives.
  lemma {:induction false} BaseOfExtension(stem: string, ext: string, unicode: char -> bool)
    requires IsExtension(ext)
    ensures Base(stem + "." + ext, unicode)
         == if HasLeading(stem, unicode) then Base(stem, unicode) + "." + ext else ext
  {
    hide *;
    ExtensionIsClean(ext, unicode);
    BaseOfTail(stem, "." + ext, unicode);
    Regroup(stem, ".", ext);
    Regroup(Base(stem, unicode), ".", ext);
  }

  // The extension stays in its place exactly when something before it survives the trim
  // and the name fits.
  lemma {:induction false} ExtensionKeptExactly(stem: string, ext: string, unicode: char -> bool)
    requires IsExtension(ext)
    ensures Sanitize(stem + "." + ext, unicode) == Name(Base(stem, unicode) + "." + ext)
       <==> HasLeading(stem, unicode) && Bytes(Base(stem + "." + ext, unicode)) <= MAX_BYTES
  {
    assert ext != "";
    hide Base, HasLeading, IsExtension, IsAlphanumeric, Clean, TrimStart, Bytes, CharBytes;
    BaseOfExtension(stem, ext, unicode);
    LeadingMeansBase(stem, unicode);
    var b := Base(stem + "." + ext, unicode);
    if Bytes(b) > MAX_BYTES && Cut(b, MAX_BYTES).Name? {
      var s := Cut(b, MAX_BYTES).name;
      hide Cut;
      assert s <= b && s != b;
    }
  }

  // A short name can lose it,
  lemma {:induction false} BareExtensionIsTrimmed(unicode: char -> bool)
    ensures Sanitize(".ogg", unicode) == Name("ogg")
  {
    var none: string := "";
    AsciiBytes("ogg");
    assert IsExtension("ogg") && !HasLeading(none, unicode);
    hide Base, Cut, Bytes, CharBytes, Clean, TrimStart;
    hide HasLeading, IsExtension, IsAlphanumeric, CleanChar, IsLead;
    assert none + "." + "ogg" == ".ogg";
    BaseOfExtension(none, "ogg", unicode);
  }

  // and so can a long one.
  lemma {:induction false} LongExtensionIsCut(unicode: char -> bool)
    ensures var stem := seq(MAX_BYTES, i => 'a');
      Sanitize(stem + ".ogg", unicode) == Name(stem)
  {
    var stem := seq(MAX_BYTES, i => 'a');
    var name := stem + ".ogg";
    GoodCharacters(name, unicode);
    AsciiBytes(name);
    CutLength(name, MAX_BYTES);
    assert name[..MAX_BYTES] == stem;
    hide Base, Cut, Bytes;
  }

  lemma {:induction false} CutLength(s: string, n: nat)
    requires forall i :: 0 <= i < |s| ==> s[i] < '\U{80}'
    requires n <= Bytes(s)
    ensures n <= |s| && Cut(s, n) == Name(s[..n])
  {
    AsciiBytes(s);
    if n > 0 {
      CutLength(s[1..], n - 1);
      assert [s[0]] + s[1..][..n - 1] == s[..n];
    } else {
      assert s[..0] == "";
    }
  }

  // ------------------------------------------------------------------

  function ObjectKey(id: Uuid, name: string): string {
    "media/" + Print(id) + "/" + name
  }

  // An object key splits in one way only, so distinct ids give distinct keys.
  lemma {:induction false} KeySplits(id: Uuid, name: string, id': Uuid, name': string)
    ensures ObjectKey(id, name) == ObjectKey(id', name') <==> id == id' && name == name'
  {
    if ObjectKey(id, name) == ObjectKey(id', name') {
      assert ObjectKey(id, name)[6..42] == Print(id) && ObjectKey(id', name')[6..42] == Print(id');
      assert ObjectKey(id, name)[43..] == name && ObjectKey(id', name')[43..] == name';
      SamePrint(id, id');
    }
  }
}
