/** What language negotiation promises. */
module LocaleTheorems {
  import opened Strings
  import opened Wrappers
  import opened Locales

  // ------------------------------------------------------------------ one tag

  /** The k leading subtags of a tag. */
  function Prefix(parts: seq<string>, k: nat): string
    requires k <= |parts|
  {
    Join(parts[..k], "-")
  }

  /** The longest named prefix is k subtags long. */
  ghost predicate Longest(reg: Registry, parts: seq<string>, k: nat) {
    && 1 <= k <= |parts| && Named(reg, Prefix(parts, k)).Some?
    && forall j :: k < j <= |parts| ==> Named(reg, Prefix(parts, j)).None?
  }

  ghost predicate NothingNamed(reg: Registry, parts: seq<string>) {
    forall j :: 1 <= j <= |parts| ==> Named(reg, Prefix(parts, j)).None?
  }

  lemma {:induction false} LookupLongest(reg: Registry, parts: seq<string>) returns (k: nat)
    requires parts != []
    ensures if Lookup(reg, parts).Some? then Longest(reg, parts, k) && Lookup(reg, parts) == Named(reg, Prefix(parts, k))
            else NothingNamed(reg, parts)
    decreases |parts|
  {
    hide Named;
    k := |parts|;
    assert parts[..k] == parts;
    if Named(reg, Prefix(parts, k)).None? && k > 1 {
      var shorter := parts[..|parts| - 1];
      k := LookupLongest(reg, shorter);
      assert forall j :: 0 <= j < |parts| ==> shorter[..j] == parts[..j];
      assert forall j :: 1 <= j < |parts| ==> Prefix(shorter, j) == Prefix(parts, j);
    }
  }

  /** A well-formed tag normalises to what its longest named subtag prefix names, case and separator aside; to nothing
      when no prefix is named; and anything else normalises to nothing. */
  lemma NormalizesToLongestPrefix(reg: Registry, raw: string) returns (k: nat)
    ensures var tag := Dashes(Strip(raw));
            var parts := Split(Lower(tag), '-');
            var locale := Normalize(reg, Some(raw));
            if !TagLike(tag) then locale.None?
            else if locale.Some? then Longest(reg, parts, k) && locale == Named(reg, Prefix(parts, k))
            else NothingNamed(reg, parts)
  {
    hide Named;
    hide Longest;
    hide NothingNamed;
    hide Prefix;
    hide TagLike;
    hide Lookup;
    hide Split;
    k := LookupLongest(reg, Split(Lower(Dashes(Strip(raw))), '-'));
  }

  /** Supported codes are tags, told apart by their letters whatever the case; aliases lead to supported codes. */
  ghost predicate Coherent(reg: Registry) {
    && (forall k :: 0 <= k < |reg.supported| ==> TagLike(reg.supported[k]))
    && (forall j, k :: 0 <= j < k < |reg.supported| ==> Lower(reg.supported[j]) != Lower(reg.supported[k]))
    && (forall a :: a in reg.aliases ==> reg.aliases[a] in reg.supported)
  }

  lemma TwoLetters(tag: string)
    requires |tag| == 2 && Letter(tag[0]) && Letter(tag[1])
    ensures TagLike(tag)
  {
    assert tag[1..][1..] == "";
    assert Split(tag[1..], '-') == [[tag[1]] + ""];
    assert [tag[0]] + ([tag[1]] + "") == tag;
    assert Split(tag, '-') == [tag];
  }

  lemma ShippedIsCoherent()
    ensures Coherent(SHIPPED) && DEFAULT_LOCALE in SHIPPED.supported
  {
    forall k | 0 <= k < |SHIPPED.supported| ensures TagLike(SHIPPED.supported[k]) { TwoLetters(SHIPPED.supported[k]); }
    hide TagLike;
    var s := SHIPPED.supported;
    forall j, k | 0 <= j < k < |s| ensures Lower(s[j]) != Lower(s[k]) {
      assert Lower(s[j])[0] == s[j][0] && Lower(s[k])[0] == s[k][0] && Lower(s[j])[1] == s[j][1] && Lower(s[k])[1] == s[k][1];
    }
  }

  lemma {:induction false} SpelledIsSupported(supported: seq<string>, lowered: string)
    ensures match Spelled(supported, lowered)
            case Some(code) => code in supported && Lower(code) == lowered
            case None => forall k :: 0 <= k < |supported| ==> Lower(supported[k]) != lowered
  {
    if supported != [] { SpelledIsSupported(supported[1..], lowered); }
  }

  lemma SpelledItself(supported: seq<string>, code: string)
    requires code in supported
    requires forall j, k :: 0 <= j < k < |supported| ==> Lower(supported[j]) != Lower(supported[k])
    ensures Spelled(supported, Lower(code)) == Some(code)
  {
    SpelledIsSupported(supported, Lower(code));
    hide Spelled;
    hide Lower;
  }

  lemma NamedIsSupported(reg: Registry, lowered: string)
    requires Coherent(reg)
    ensures Named(reg, lowered).Some? ==> Named(reg, lowered).value in reg.supported
  {
    SpelledIsSupported(reg.supported, lowered);
    hide Spelled;
    hide TagLike;
    hide Lower;
  }

  lemma {:induction false} LookupIsSupported(reg: Registry, parts: seq<string>)
    requires Coherent(reg)
    ensures Lookup(reg, parts).Some? ==> Lookup(reg, parts).value in reg.supported
    decreases |parts|
  {
    hide Coherent;
    hide Named;
    NamedIsSupported(reg, Join(parts, "-"));
    if |parts| > 1 { LookupIsSupported(reg, parts[..|parts| - 1]); }
  }

  lemma {:induction false} Unstripped(s: string)
    requires forall c :: c in s ==> !Space(c)
    ensures StripLeft(s) == s && StripRight(s) == s && Strip(s) == s
  {
    if s != "" { assert s[0] in s && s[|s| - 1] in s; }
  }

  lemma TagCharacters(tag: string)
    requires TagLike(tag)
    ensures forall c :: c in tag ==> Alphanumeric(c) || c == '-'
  {
    var parts := Split(tag, '-');
    forall c | c in tag && c != '-' ensures Alphanumeric(c) {
      var k := PartWith(tag, '-', c);
      assert c in parts[k];
    }
  }

  lemma {:induction false} PartWith(s: string, sep: char, c: char) returns (k: nat)
    requires c in s && c != sep
    ensures k < |Split(s, sep)| && c in Split(s, sep)[k]
  {
    var rest := Split(s[1..], sep);
    k := 0;
    if c != s[0] {
      assert c in s[1..];
      k := PartWith(s[1..], sep, c);
      if s[0] == sep { k := k + 1; }
    }
  }

  lemma TagUntouched(tag: string)
    requires TagLike(tag)
    ensures Dashes(Strip(tag)) == tag
  {
    TagCharacters(tag);
    hide TagLike;
    Unstripped(tag);
    hide Strip;
    forall k | 0 <= k < |tag| ensures tag[k] != '_' { assert tag[k] in tag; }
  }

  /** Normalising is idempotent: whatever it returns is a supported locale, and normalises to itself. */
  lemma NormalizeIdempotent(reg: Registry, raw: Option<string>)
    requires Coherent(reg) && Normalize(reg, raw).Some?
    ensures Normalize(reg, raw).value in reg.supported
    ensures Normalize(reg, Normalize(reg, raw)) == Normalize(reg, raw)
  {
    var code := Normalize(reg, raw).value;
    LookupIsSupported(reg, Split(Lower(Dashes(Strip(raw.value))), '-'));
    hide Strip;
    hide TagLike;
    hide Split;
    assert TagLike(code);
    TagUntouched(code);
    SpelledItself(reg.supported, code);
    hide Spelled;
    SplitJoins(Lower(code), '-');
    hide Join;
    assert Named(reg, Lower(code)) == Some(code);
  }

  // ------------------------------------------------------------------ the header

  /** No two entries share a place in the header. */
  predicate DistinctPlaces(s: seq<Scored>) { forall i, j :: 0 <= i < j < |s| ==> s[i].index != s[j].index }

  predicate InOrder(s: seq<Scored>) { forall i, j :: 0 <= i < j < |s| ==> Preferred(s[i], s[j]) }

  /** Entry x is what the segment at its place asks for. */
  predicate Asks(reg: Registry, segments: seq<string>, number: string -> Option<real>, x: Scored) {
    x.index < |segments| && Preference(reg, segments[x.index], x.index, number) == Some(x)
  }

  lemma {:induction false} ScoresAre(reg: Registry, segments: seq<string>, number: string -> Option<real>)
    ensures var s := Scores(reg, segments, number);
            && DistinctPlaces(s)
            && forall x :: x in s <==> Asks(reg, segments, number, x)
    decreases |segments|
  {
    hide Preference;
    if segments != [] {
      var last := |segments| - 1;
      var before := Scores(reg, segments[..last], number);
      ScoresAre(reg, segments[..last], number);
      PreferenceKeepsPlace(reg, segments[last], last, number);
      forall x ensures Asks(reg, segments, number, x) <==>
          Asks(reg, segments[..last], number, x) || Preference(reg, segments[last], last, number) == Some(x) {
        AsksSnoc(reg, segments, number, x);
      }
      assert forall x :: x in before ==> x.index < last;
      hide Asks;
    }
  }

  lemma AsksSnoc(reg: Registry, segments: seq<string>, number: string -> Option<real>, x: Scored)
    requires segments != []
    ensures var last := |segments| - 1;
            Asks(reg, segments, number, x) <==>
            Asks(reg, segments[..last], number, x) || Preference(reg, segments[last], last, number) == Some(x)
  {
    var last := |segments| - 1;
    PreferenceKeepsPlace(reg, segments[last], last, number);
    hide Preference;
    if x.index < last { assert segments[..last][x.index] == segments[x.index]; }
  }

  lemma PreferenceKeepsPlace(reg: Registry, segment: string, index: nat, number: string -> Option<real>)
    ensures Preference(reg, segment, index, number).Some? ==> Preference(reg, segment, index, number).value.index == index
  {
    hide Quality;
    hide Normalize;
    hide Strip;
  }

  lemma {:induction false} InsertOrders(x: Scored, s: seq<Scored>)
    requires InOrder(s) && forall y :: y in s ==> y.index != x.index
    ensures InOrder(Insert(x, s)) && forall y :: y in Insert(x, s) <==> y == x || y in s
  {
    if s == [] {
    } else if Preferred(x, s[0]) {
      forall k | 0 <= k < |s| ensures Preferred(x, s[k]) { if k > 0 { assert Preferred(s[0], s[k]); } }
      ConsInOrder(x, s);
    } else {
      assert s == [s[0]] + s[1..] && s[0] in s;
      InsertOrders(x, s[1..]);
      var rest := Insert(x, s[1..]);
      forall k | 0 <= k < |rest| ensures Preferred(s[0], rest[k]) {
        assert rest[k] in rest;
        if rest[k] != x { assert rest[k] in s[1..]; }
      }
      ConsInOrder(s[0], rest);
    }
  }

  lemma ConsInOrder(x: Scored, s: seq<Scored>)
    requires InOrder(s) && forall k :: 0 <= k < |s| ==> Preferred(x, s[k])
    ensures InOrder([x] + s)
  {
    hide Preferred;
  }

  lemma {:induction false} SortOrders(s: seq<Scored>)
    requires DistinctPlaces(s)
    ensures InOrder(Sort(s)) && forall y :: y in Sort(s) <==> y in s
    decreases |s|
  {
    if s != [] {
      var n := |s| - 1;
      SortOrders(s[..n]);
      assert s == s[..n] + [s[n]];
      hide InOrder;
      forall y | y in Sort(s[..n]) ensures y.index != s[n].index {
        assert y in s[..n];
        var i :| 0 <= i < n && s[i] == y;
      }
      InsertOrders(s[n], Sort(s[..n]));
    }
  }

  /** Some entry is for this code. */
  predicate Coded(s: seq<Scored>, code: string) { exists i :: 0 <= i < |s| && s[i].code == code }

  /** An entry for `a` comes before every entry for `b`. */
  predicate Leads(s: seq<Scored>, a: string, b: string) { exists i :: 0 <= i < |s| && LeadsAt(s, a, b, i) }

  predicate LeadsAt(s: seq<Scored>, a: string, b: string, i: nat) {
    i < |s| && s[i].code == a && forall j :: 0 <= j < |s| && s[j].code == b ==> i < j
  }

  predicate Distinct(r: seq<string>) { forall i, j :: 0 <= i < j < |r| ==> r[i] != r[j] }

  lemma CodedSnoc(s: seq<Scored>, x: Scored, code: string)
    ensures Coded(s + [x], code) <==> Coded(s, code) || x.code == code
  {
    var t := s + [x];
    if Coded(s, code) {
      var i :| 0 <= i < |s| && s[i].code == code;
      assert t[i].code == code;
    }
    if x.code == code { assert t[|s|].code == code; }
    if Coded(t, code) {
      var i :| 0 <= i < |t| && t[i].code == code;
      if i < |s| { assert s[i].code == code; }
    }
  }

  lemma {:induction false} CodesAre(s: seq<Scored>)
    ensures Distinct(Codes(s)) && forall code :: code in Codes(s) <==> Coded(s, code)
    decreases |s|
  {
    if s != [] {
      var n := |s| - 1;
      CodesAre(s[..n]);
      assert s == s[..n] + [s[n]];
      forall code ensures code in Codes(s) <==> Coded(s, code) { CodedSnoc(s[..n], s[n], code); }
    }
    hide Coded;
  }

  lemma LeadsAnyway(s: seq<Scored>, x: Scored, a: string, b: string)
    requires Leads(s, a, b)
    ensures Leads(s + [x], a, b)
  {
    var i :| 0 <= i < |s| && LeadsAt(s, a, b, i);
    var t := s + [x];
    forall j | 0 <= j < |t| && t[j].code == b ensures i < j {
      if j < |s| { assert s[j].code == b; }
    }
    assert t[i] == s[i] && LeadsAt(t, a, b, i);
  }

  lemma LeadsTheNew(s: seq<Scored>, x: Scored, a: string)
    requires Coded(s, a) && !Coded(s, x.code)
    ensures Leads(s + [x], a, x.code)
  {
    var i :| 0 <= i < |s| && s[i].code == a;
    var t := s + [x];
    assert forall j :: 0 <= j < |s| ==> t[j] == s[j] && s[j].code != x.code;
    assert t[i] == s[i] && LeadsAt(t, a, x.code, i);
  }

  /** Codes keeps each code at its first place: an entry for it precedes all entries of every code that follows. */
  lemma {:induction false} CodesLead(s: seq<Scored>, i: nat, j: nat)
    requires i < j < |Codes(s)|
    ensures Leads(s, Codes(s)[i], Codes(s)[j])
    decreases |s|
  {
    var n := |s| - 1;
    var before := Codes(s[..n]);
    CodesAre(s[..n]);
    hide Leads;
    hide Coded;
    assert s == s[..n] + [s[n]];
    if j < |before| {
      CodesLead(s[..n], i, j);
      LeadsAnyway(s[..n], s[n], before[i], before[j]);
    } else {
      assert before[i] in before;
      LeadsTheNew(s[..n], s[n], before[i]);
    }
  }

  // ------------------------------------------------------------------ the result

  /** Some segment of the header, with positive weight, asks for this code. */
  ghost predicate Wanted(reg: Registry, segments: seq<string>, number: string -> Option<real>, code: string) {
    exists x :: Asks(reg, segments, number, x) && x.code == code
  }

  /** The best segment for `a` is preferred to every segment for `b`: larger weight, or the same and earlier. */
  ghost predicate Outranks(reg: Registry, segments: seq<string>, number: string -> Option<real>, a: string, b: string) {
    exists x :: Asks(reg, segments, number, x) && x.code == a && BeatsAll(reg, segments, number, x, b)
  }

  ghost predicate BeatsAll(reg: Registry, segments: seq<string>, number: string -> Option<real>, x: Scored, b: string) {
    forall y :: Asks(reg, segments, number, y) && y.code == b ==> Preferred(x, y)
  }

  lemma PlacesInOrder(s: seq<Scored>, a: string, b: string) returns (x: Scored)
    requires InOrder(s) && Leads(s, a, b)
    ensures x in s && x.code == a && forall y :: y in s && y.code == b ==> Preferred(x, y)
  {
    var i :| 0 <= i < |s| && LeadsAt(s, a, b, i);
    x := s[i];
    forall y | y in s && y.code == b ensures Preferred(x, y) {
      var j :| 0 <= j < |s| && s[j] == y;
    }
  }

  lemma CodedMembers(s: seq<Scored>, code: string)
    ensures Coded(s, code) <==> exists x :: x in s && x.code == code
  {
    if Coded(s, code) {
      var i :| 0 <= i < |s| && s[i].code == code;
      assert s[i] in s;
    }
    if x :| x in s && x.code == code {
      var i :| 0 <= i < |s| && s[i] == x;
    }
  }

  /** The accepted languages are exactly the supported locales some segment with positive weight asks for, each once, and
      each is listed before another exactly as its best segment is preferred. */
  lemma AcceptedAreWanted(reg: Registry, header: string, number: string -> Option<real>)
    ensures var segments := Split(header, ',');
            var r := Accepted(reg, Some(header), number);
            && Distinct(r)
            && (forall code :: code in r <==> Wanted(reg, segments, number, code))
            && (forall i, j :: 0 <= i < j < |r| ==> Outranks(reg, segments, number, r[i], r[j]))
  {
    var segments := Split(header, ',');
    var scores := Scores(reg, segments, number);
    var sorted := Sort(scores);
    var r := Codes(sorted);
    ScoresAre(reg, segments, number);
    SortOrders(scores);
    CodesAre(sorted);
    hide Asks;
    hide Scores;
    hide Sort;
    hide Codes;
    hide Preferred;
    forall code ensures code in r <==> Wanted(reg, segments, number, code) { CodedMembers(sorted, code); }
    forall i, j | 0 <= i < j < |r| ensures Outranks(reg, segments, number, r[i], r[j]) {
      CodesLead(sorted, i, j);
      var x := PlacesInOrder(sorted, r[i], r[j]);
      assert BeatsAll(reg, segments, number, x, r[j]);
    }
  }

  /** Negotiation always answers with a supported locale: the stored preference when it names one, else the header's best,
      else the fallback, else the default. */
  lemma NegotiatesSupported(reg: Registry, header: Option<string>, preferred: Option<string>, fallback: Option<string>,
                            number: string -> Option<real>)
    requires Coherent(reg) && DEFAULT_LOCALE in reg.supported
    ensures var code := Negotiate(reg, header, preferred, fallback, number);
            && code in reg.supported
            && (Normalize(reg, preferred).Some? ==> Some(code) == Normalize(reg, preferred))
            && (Normalize(reg, preferred).None? && header.Some? ==>
                  forall other :: Wanted(reg, Split(header.value, ','), number, other) && other != code ==>
                    Outranks(reg, Split(header.value, ','), number, code, other))
  {
    hide Coherent;
    hide Normalize;
    if Normalize(reg, preferred).Some? { NormalizeIdempotent(reg, preferred); }
    if Normalize(reg, fallback).Some? { NormalizeIdempotent(reg, fallback); }
    if header.Some? {
      var segments := Split(header.value, ',');
      var r := Accepted(reg, header, number);
      AcceptedAreWanted(reg, header.value, number);
      hide Accepted;
      hide Wanted;
      hide Outranks;
      if r != [] {
        assert r[0] in r;
        WantedIsSupported(reg, segments, number, r[0]);
        forall other | other in r && other != r[0] ensures Outranks(reg, segments, number, r[0], other) {
          var j :| 0 <= j < |r| && r[j] == other;
        }
      }
    }
  }

  lemma WantedIsSupported(reg: Registry, segments: seq<string>, number: string -> Option<real>, code: string)
    requires Coherent(reg) && Wanted(reg, segments, number, code)
    ensures code in reg.supported
  {
    hide Coherent;
    hide Normalize;
    hide Quality;
    hide Strip;
    var x :| Asks(reg, segments, number, x) && x.code == code;
    var tag := Before(Strip(segments[x.index]), ';');
    assert Normalize(reg, Some(tag)) == Some(code);
    NormalizeIdempotent(reg, Some(tag));
  }
}
