/** Which language to answer in: locale tags, the Accept-Language header (sections 12.4.2 and 12.5.4 of RFC 9110), and the
    choice between a stored preference, the header and a fallback. */
module Locales {
  import opened Strings
  import opened Wrappers

  /** The locales with catalogs, in order, and spellings that are not their own. */
  datatype Registry = Registry(supported: seq<string>, aliases: map<string, string>)

  const SHIPPED := Registry(["en", "de", "fr", "es", "it"], map[])

  const DEFAULT_LOCALE := "en"

  // ------------------------------------------------------------------ text

  predicate Space(c: char) {
    '\t' <= c <= '\r' || '\U{1C}' <= c <= ' ' || c == '\U{85}' || c == '\U{A0}' || c == '\U{1680}'
    || '\U{2000}' <= c <= '\U{200A}' || c == '\U{2028}' || c == '\U{2029}' || c == '\U{202F}' || c == '\U{205F}' || c == '\U{3000}'
  }

  function StripLeft(s: string): string { if s != "" && Space(s[0]) then StripLeft(s[1..]) else s }

  function StripRight(s: string): string {
    if s != "" && Space(s[|s| - 1]) then StripRight(s[..|s| - 1]) else s
  }

  function Strip(s: string): string { StripRight(StripLeft(s)) }

  function Dashes(s: string): (r: string)
    ensures |r| == |s| && forall k :: 0 <= k < |s| ==> r[k] == if s[k] == '_' then '-' else s[k]
  {
    seq(|s|, k requires 0 <= k < |s| => if s[k] == '_' then '-' else s[k])
  }

  predicate Letter(c: char) { 'A' <= c <= 'Z' || 'a' <= c <= 'z' }

  predicate Alphanumeric(c: char) { Letter(c) || '0' <= c <= '9' }

  /** Two or three letters, then subtags of one to eight letters or digits. */
  predicate TagLike(tag: string) {
    var parts := Split(tag, '-');
    && 2 <= |parts[0]| <= 3 && (forall c :: c in parts[0] ==> Letter(c))
    && forall k :: 1 <= k < |parts| ==> 1 <= |parts[k]| <= 8 && forall c :: c in parts[k] ==> Alphanumeric(c)
  }

  function LowerChar(c: char): char { if 'A' <= c <= 'Z' then c + 32 as char else c }

  function Lower(s: string): (r: string)
    ensures |r| == |s| && forall k :: 0 <= k < |s| ==> r[k] == LowerChar(s[k])
  {
    seq(|s|, k requires 0 <= k < |s| => LowerChar(s[k]))
  }

  // ------------------------------------------------------------------ one tag

  /** The first supported locale spelled this way up to case. */
  function Spelled(supported: seq<string>, lowered: string): Option<string> {
    if supported == [] then None
    else if Lower(supported[0]) == lowered then Some(supported[0])
    else Spelled(supported[1..], lowered)
  }

  function Named(reg: Registry, lowered: string): Option<string> {
    match Spelled(reg.supported, lowered)
    case Some(code) => Some(code)
    case None => if lowered in reg.aliases then Some(reg.aliases[lowered]) else None
  }

  /** Give up subtags from the right until something is named. */
  function Lookup(reg: Registry, parts: seq<string>): Option<string>
    decreases |parts|
  {
    match Named(reg, Join(parts, "-"))
    case Some(code) => Some(code)
    case None => if |parts| <= 1 then None else Lookup(reg, parts[..|parts| - 1])
  }

  function Normalize(reg: Registry, raw: Option<string>): Option<string> {
    if raw.None? then None
    else
      var tag := Dashes(Strip(raw.value));
      if TagLike(tag) then Lookup(reg, Split(Lower(tag), '-')) else None
  }

  method FindNamed(reg: Registry, lowered: string) returns (code: Option<string>)
    ensures code == Named(reg, lowered)
  {
    var i := 0;
    while i < |reg.supported|
      invariant 0 <= i <= |reg.supported|
      invariant Spelled(reg.supported, lowered) == Spelled(reg.supported[i..], lowered)
    {
      assert reg.supported[i..][1..] == reg.supported[i + 1..];
      if Lower(reg.supported[i]) == lowered { return Some(reg.supported[i]); }
      i := i + 1;
    }
    if lowered in reg.aliases { return Some(reg.aliases[lowered]); }
    return None;
  }

  method NormalizeLocale(reg: Registry, raw: Option<string>) returns (locale: Option<string>)
    ensures locale == Normalize(reg, raw)
  {
    hide TagLike;
    hide Named;
    hide Strip;
    if raw.None? || raw.value == "" {
      if raw.Some? { EmptyIsNoTag(); }
      return None;
    }
    var tag := Dashes(Strip(raw.value));
    if !TagLike(tag) { return None; }
    var lowered := Lower(tag);
    SplitJoins(lowered, '-');
    var parts := Split(lowered, '-');
    locale := FindNamed(reg, lowered);
    if locale.Some? { return; }
    while |parts| > 1
      invariant parts != [] && Named(reg, Join(parts, "-")).None?
      invariant Lookup(reg, parts) == Lookup(reg, Split(lowered, '-'))
    {
      parts := parts[..|parts| - 1];
      locale := FindNamed(reg, Join(parts, "-"));
      if locale.Some? { return; }
    }
    return None;
  }

  lemma EmptyIsNoTag()
    ensures !TagLike(Dashes(Strip("")))
  {
    assert Strip("") == "" && Dashes("") == "" && Split("", '-') == [""];
  }

  // ------------------------------------------------------------------ the header

  datatype Scored = Scored(quality: real, index: nat, code: string)

  /** `s.partition(c)`: what precedes the first c, and what follows it (nothing when there is none). */
  function Before(s: string, c: char): string { if s == "" || s[0] == c then "" else [s[0]] + Before(s[1..], c) }

  function After(s: string, c: char): string {
    if s == "" then "" else if s[0] == c then s[1..] else After(s[1..], c)
  }

  /** `number` reads a weight; None when it cannot be read. */
  function Quality(params: string, number: string -> Option<real>): real {
    var text := Strip(params);
    if params == "" || Lower(Strip(Before(text, '='))) != "q" then 1.0
    else match number(After(text, '=')) case None => 1.0 case Some(q) => q
  }

  /** What one segment of the header asks for, if anything. */
  function Preference(reg: Registry, segment: string, index: nat, number: string -> Option<real>): Option<Scored> {
    var piece := Strip(segment);
    if piece == "" then None
    else
      var quality := Quality(After(piece, ';'), number);
      if quality <= 0.0 then None
      else match Normalize(reg, Some(Before(piece, ';')))
        case None => None
        case Some(code) => Some(Scored(quality, index, code))
  }

  function Scores(reg: Registry, segments: seq<string>, number: string -> Option<real>): seq<Scored>
    decreases |segments|
  {
    if segments == [] then []
    else
      var last := |segments| - 1;
      var p := Preference(reg, segments[last], last, number);
      Scores(reg, segments[..last], number) + (if p.Some? then [p.value] else [])
  }

  /** Better quality first, then earlier in the header. */
  predicate Preferred(a: Scored, b: Scored) { a.quality > b.quality || (a.quality == b.quality && a.index < b.index) }

  function Insert(x: Scored, s: seq<Scored>): seq<Scored> {
    if s == [] || Preferred(x, s[0]) then [x] + s else [s[0]] + Insert(x, s[1..])
  }

  function Sort(s: seq<Scored>): seq<Scored>
    decreases |s|
  {
    if s == [] then [] else Insert(s[|s| - 1], Sort(s[..|s| - 1]))
  }

  /** The codes in order, each at its first place. */
  function Codes(s: seq<Scored>): seq<string>
    decreases |s|
  {
    if s == [] then []
    else
      var before := Codes(s[..|s| - 1]);
      if s[|s| - 1].code in before then before else before + [s[|s| - 1].code]
  }

  function Accepted(reg: Registry, header: Option<string>, number: string -> Option<real>): seq<string> {
    if header.None? then [] else Codes(Sort(Scores(reg, Split(header.value, ','), number)))
  }

  method ParseAcceptLanguage(reg: Registry, header: Option<string>, number: string -> Option<real>)
    returns (ordered: seq<string>)
    ensures ordered == Accepted(reg, header, number)
  {
    hide Quality;
    hide Normalize;
    hide Strip;
    if header.None? || header.value == "" {
      if header.Some? { NothingAccepted(reg, number); }
      return [];
    }
    var segments := Split(header.value, ',');
    var scored := [];
    var index := 0;
    while index < |segments|
      invariant 0 <= index <= |segments| && scored == Scores(reg, segments[..index], number)
    {
      assert segments[..index + 1][..index] == segments[..index];
      var piece := Strip(segments[index]);
      if piece != "" {
        var tag, params := Before(piece, ';'), After(piece, ';');
        var quality := Quality(params, number);
        if quality > 0.0 {
          var code := NormalizeLocale(reg, Some(tag));
          if code.Some? { scored := scored + [Scored(quality, index, code.value)]; }
        }
      }
      index := index + 1;
    }
    assert segments[..index] == segments;
    ordered := Dedupe(Sort(scored));
  }

  method Dedupe(sorted: seq<Scored>) returns (ordered: seq<string>)
    ensures ordered == Codes(sorted)
  {
    ordered := [];
    var i := 0;
    while i < |sorted|
      invariant 0 <= i <= |sorted| && ordered == Codes(sorted[..i])
    {
      assert sorted[..i + 1][..i] == sorted[..i];
      if sorted[i].code !in ordered { ordered := ordered + [sorted[i].code]; }
      i := i + 1;
    }
    assert sorted[..i] == sorted;
  }

  lemma NothingAccepted(reg: Registry, number: string -> Option<real>)
    ensures Accepted(reg, Some(""), number) == []
  {
    assert Split("", ',') == [""] && Strip("") == "";
    var segments := [""];
    assert Preference(reg, "", 0, number) == None;
    assert Scores(reg, [""], number) == Scores(reg, [""][..0], number) + [];
    assert [""][..0] == [];
  }

  function Negotiate(reg: Registry, header: Option<string>, preferred: Option<string>, fallback: Option<string>,
                     number: string -> Option<real>): string {
    match Normalize(reg, preferred)
    case Some(code) => code
    case None =>
      var accepted := Accepted(reg, header, number);
      if accepted != [] then accepted[0]
      else match Normalize(reg, fallback) case Some(code) => code case None => DEFAULT_LOCALE
  }
}
