/** The pattern generator: what it makes of a page, what its patterns match, and what they do not. */
module UrlPatterns {
  import opened Strings
  import opened Globs

  // ------------------------------------------------------------------ patterns generated from a page

  /** A parsed page address without user information. `site` is what precedes the path: scheme and host, or `file://`.
      `path` never contains `?` or `#`. */
  datatype Url = Url(protocol: string, site: string, nullOrigin: bool, path: string, search: string, hash: string)

  function Href(u: Url): string { u.site + u.path + u.search + u.hash }

  /** The serialised origin: an opaque one, such as that of a file, reads "null". */
  function Origin(u: Url): string { if Opaque(u) then "null" else u.site }

  predicate Web(u: Url) { u.protocol == "http:" || u.protocol == "https:" }

  /** Web pages always have an origin of their own. */
  predicate Opaque(u: Url) { u.nullOrigin && !Web(u) }

  predicate HexOrDash(c: char) { '0' <= c <= '9' || 'a' <= c <= 'f' || 'A' <= c <= 'F' || c == '-' }

  /** Length of the longest run of hex digits and dashes at the front. */
  function Run(s: string): (n: nat)
    ensures n <= |s|
  {
    if s != "" && HexOrDash(s[0]) then 1 + Run(s[1..]) else 0
  }

  /** Path segments of six or more hex digits and dashes become a wildcard. */
  function Generalize(path: string): string
    decreases |path|
  {
    if path == "" then ""
    else
      var n := Run(path[1..]);
      if path[0] == '/' && n >= 6 && (1 + n == |path| || path[1 + n] == '/') then "/*" + Generalize(path[1 + n..])
      else [path[0]] + Generalize(path[1..])
  }

  function UrlPatternOf(u: Url): string {
    var path := Generalize(u.path);
    if path != "" && path[|path| - 1] == '*' then Origin(u) + path else Origin(u) + path + "*"
  }

  function StripSlashes(path: string): string {
    if path != "" && path[|path| - 1] == '/' then StripSlashes(path[..|path| - 1]) else path
  }

  function SuggestUrlPattern(u: Url): string {
    if !Web(u) then "" else Origin(u) + StripSlashes(u.path) + "*"
  }

  lemma {:induction false} FlatAdds(a: seq<string>, b: seq<string>)
    ensures Flat(a + b) == Flat(a) + Flat(b)
  {
    if a == [] {
      assert a + b == b;
    } else {
      assert (a + b)[1..] == a[1..] + b;
      FlatAdds(a[1..], b);
    }
  }

  lemma MeansAdds(p: string, v: string, q: string, w: string, fold: char -> char)
    requires Means(p, v, fold, false) && Means(q, w, fold, false)
    ensures Means(p + q, v + w, fold, false)
  {
    var a :| Fitting(p, a, v, fold, false);
    var b :| Fitting(q, b, w, fold, false);
    FlatAdds(a, b);
    forall k | 0 <= k < |p + q| ensures Fits((p + q)[k], (a + b)[k], fold, false) {
      if k < |p| { assert Fits(p[k], a[k], fold, false); } else { assert Fits(q[k - |p|], b[k - |p|], fold, false); }
    }
    hide Flat;
    hide Fits;
    assert Fitting(p + q, a + b, v + w, fold, false);
  }

  lemma OneMeans(c: char, fold: char -> char)
    requires !LineTerminator(c)
    ensures Means([c], [c], fold, false)
  {
    FlatSplit([[c]]);
    assert Fitting([c], [[c]], [c], fold, false);
  }

  lemma {:induction false} TextMeansItself(s: string, fold: char -> char)
    requires OneLine(s)
    ensures Means(s, s, fold, false)
  {
    if s == "" {
      assert Fitting("", [], "", fold, false);
    } else {
      TextMeansItself(s[1..], fold);
      OneMeans(s[0], fold);
      MeansAdds([s[0]], [s[0]], s[1..], s[1..], fold);
      assert [s[0]] + s[1..] == s;
    }
  }

  lemma {:induction false} GeneralizedMeans(path: string, fold: char -> char)
    requires OneLine(path)
    ensures Means(Generalize(path), path, fold, false)
    decreases |path|
  {
    hide Means;
    if path == "" {
      TextMeansItself("", fold);
    } else {
      var n := Run(path[1..]);
      OneMeans(path[0], fold);
      if path[0] == '/' && n >= 6 && (1 + n == |path| || path[1 + n] == '/') {
        GeneralizedMeans(path[1 + n..], fold);
        LoneStar(path[1..1 + n], fold, false);
        MeansAdds("/", "/", "*", path[1..1 + n], fold);
        MeansAdds("/" + "*", "/" + path[1..1 + n], Generalize(path[1 + n..]), path[1 + n..], fold);
        assert ("/" + path[1..1 + n]) + path[1 + n..] == path && "/" + "*" == "/*" && [path[0]] == "/";
      } else {
        GeneralizedMeans(path[1..], fold);
        MeansAdds([path[0]], [path[0]], Generalize(path[1..]), path[1..], fold);
        assert [path[0]] + path[1..] == path;
      }
    }
  }

  /** A pattern ending in `*` keeps matching whatever is appended. */
  lemma StarAbsorbs(p: string, v: string, rest: string, fold: char -> char)
    requires p != "" && p[|p| - 1] == '*' && Means(p, v, fold, false) && OneLine(rest)
    ensures Means(p, v + rest, fold, false)
  {
    var a :| Fitting(p, a, v, fold, false);
    var n := |p| - 1;
    assert a == a[..n] + [a[n]];
    FlatAdds(a[..n], [a[n]]);
    FlatAdds(a[..n], [a[n] + rest]);
    FlatOne(a[n]);
    FlatOne(a[n] + rest);
    var b := a[..n] + [a[n] + rest];
    assert Fits(p[n], a[n], fold, false);
    forall k | 0 <= k < |p| ensures Fits(p[k], b[k], fold, false) {
      if k < n { assert b[k] == a[k]; } else { assert b[k] == a[n] + rest; }
    }
    hide Flat;
    hide Fits;
    assert Fitting(p, b, v + rest, fold, false);
  }

  lemma FlatOne(piece: string)
    ensures Flat([piece]) == piece
  {
    FlatSplit([piece]);
    assert Flat([]) == "" && [piece][1..] == [] && piece + "" == piece;
  }

  /** The pattern taken from a page matches that page's full address, query and fragment included, unless the page's origin is
      opaque; then it starts with "null" and matches no address that does not. */
  lemma UrlPatternMatchesItsPage(u: Url, fold: char -> char)
    requires OneLine(Href(u))
    ensures !Opaque(u) ==> GlobMatch(UrlPatternOf(u), Href(u), fold)
    ensures Opaque(u) && !StartsWith(Href(u), "null", fold) ==> !GlobMatch(UrlPatternOf(u), Href(u), fold)
  {
    hide OneLine;
    hide Generalize;
    hide GlobMatch;
    if Opaque(u) {
      if GlobMatch(UrlPatternOf(u), Href(u), fold) { OpaquePatternPins(u, Href(u), fold); }
    } else {
      PatternMatches(u, fold);
    }
  }

  lemma OpaquePatternPins(u: Url, v: string, fold: char -> char)
    requires Opaque(u) && GlobMatch(UrlPatternOf(u), v, fold)
    ensures StartsWith(v, "null", fold)
  {
    var pattern := UrlPatternOf(u);
    CompiledGlobMeansGlob(pattern, v, fold);
    hide GlobMatch;
    hide Generalize;
    var rest := pattern[4..];
    assert pattern == "null" + rest;
    var pieces :| Fitting(pattern, pieces, v, fold, false);
    LiteralsPin("null", rest, v, pieces, fold);
  }

  lemma PatternMatches(u: Url, fold: char -> char)
    requires !Opaque(u) && OneLine(Href(u))
    ensures GlobMatch(UrlPatternOf(u), Href(u), fold)
  {
    var base := u.site + u.path;
    var rest := u.search + u.hash;
    var path := Generalize(u.path);
    PartsOneLine(base, rest);
    PartsOneLine(u.site, u.path);
    assert Href(u) == base + rest;
    hide OneLine;
    hide Means;
    hide Generalize;
    TextMeansItself(u.site, fold);
    GeneralizedMeans(u.path, fold);
    MeansAdds(u.site, u.site, path, u.path, fold);
    if path != "" && path[|path| - 1] == '*' {
      StarAbsorbs(u.site + path, base, rest, fold);
    } else {
      LoneStar(rest, fold, false);
      MeansAdds(u.site + path, base, "*", rest, fold);
    }
    CompiledGlobMeansGlob(UrlPatternOf(u), Href(u), fold);
    hide GlobMatch;
  }

  lemma PartsOneLine(a: string, b: string)
    ensures OneLine(a + b) <==> OneLine(a) && OneLine(b)
  {
    if OneLine(a + b) {
      forall k | 0 <= k < |a| ensures !LineTerminator(a[k]) { assert a[k] == (a + b)[k]; }
      forall k | 0 <= k < |b| ensures !LineTerminator(b[k]) { assert b[k] == (a + b)[|a| + k]; }
    }
  }

  lemma {:induction false} StripSplits(path: string)
    ensures |StripSlashes(path)| <= |path| && StripSlashes(path) == path[..|StripSlashes(path)|]
  {
    if path != "" && path[|path| - 1] == '/' { StripSplits(path[..|path| - 1]); }
  }

  /** What is kept of a path does not end in a slash, and nothing but slashes is dropped. */
  lemma {:induction false} OnlySlashesDropped(path: string)
    ensures var kept := StripSlashes(path);
            && |kept| <= |path| && kept == path[..|kept|] && (kept != "" ==> kept[|kept| - 1] != '/')
            && forall k :: |kept| <= k < |path| ==> path[k] == '/'
  {
    if path != "" && path[|path| - 1] == '/' { OnlySlashesDropped(path[..|path| - 1]); }
  }

  /** A suggested pattern matches the page it was suggested for exactly when that page is a web page; the empty suggestion
      for any other address matches nothing but the empty value. */
  lemma SuggestionMatchesItsPage(u: Url, fold: char -> char)
    requires OneLine(Href(u)) && Href(u) != ""
    ensures GlobMatch(SuggestUrlPattern(u), Href(u), fold) <==> Web(u)
  {
    if Web(u) {
      var kept := StripSlashes(u.path);
      StripSplits(u.path);
      var rest := u.path[|kept|..] + u.search + u.hash;
      assert kept + u.path[|kept|..] == u.path;
      assert Href(u) == (Origin(u) + kept) + rest;
      PartsOneLine(Origin(u) + kept, rest);
      TextMeansItself(Origin(u) + kept, fold);
      LoneStar(rest, fold, false);
      hide OneLine;
      hide Means;
      hide StripSlashes;
      MeansAdds(Origin(u) + kept, Origin(u) + kept, "*", rest, fold);
      CompiledGlobMeansGlob(SuggestUrlPattern(u), Href(u), fold);
    } else {
      EmptyPattern(Href(u), fold);
    }
    hide GlobMatch;
  }

  // ------------------------------------------------------------------ and match nothing else

  /** A path segment looks like an id: six characters or more, all of them hex digits or dashes. */
  predicate LooksLikeId(segment: string) { |segment| >= 6 && forall c :: c in segment ==> HexDigit(c) || c == '-' }

  function GeneralSegment(segment: string): string { if LooksLikeId(segment) then "*" else segment }

  predicate HexDigit(c: char) {
    c == '0' || c == '1' || c == '2' || c == '3' || c == '4' || c == '5' || c == '6' || c == '7' || c == '8' || c == '9'
    || c == 'a' || c == 'b' || c == 'c' || c == 'd' || c == 'e' || c == 'f'
    || c == 'A' || c == 'B' || c == 'C' || c == 'D' || c == 'E' || c == 'F'
  }

  lemma HexCharacters(c: char)
    ensures HexOrDash(c) <==> HexDigit(c) || c == '-'
  {
  }

  lemma {:induction false} RunsThrough(s: string)
    ensures Run(s) == |s| <==> forall c :: c in s ==> HexDigit(c) || c == '-'
  {
    if s != "" {
      RunsThrough(s[1..]);
      HexCharacters(s[0]);
      assert s == [s[0]] + s[1..];
      hide HexOrDash;
      hide HexDigit;
    }
  }

  /** What the id test looks for, on the front of a path. */
  lemma IdIsRun(segment: string)
    ensures LooksLikeId(segment) <==> |segment| >= 6 && Run(segment) == |segment|
  {
    RunsThrough(segment);
    hide Run;
  }

  lemma {:induction false} FirstSegment(s: string)
    ensures var seg := Split(s, '/')[0];
            |seg| <= |s| && seg == s[..|seg|] && (|seg| == |s| || s[|seg|] == '/')
            && (Run(seg) == |seg| <==> Run(s) == |seg|)
  {
    if s != "" && s[0] != '/' {
      FirstSegment(s[1..]);
      var seg := Split(s, '/')[0];
      assert seg[1..] == Split(s[1..], '/')[0];
    }
  }

  lemma {:induction false} SplitAtRun(s: string, n: nat)
    requires n == Run(s) && (n == |s| || s[n] == '/')
    ensures Split(s, '/') == [s[..n]] + Split(s[n..], '/')[1..] && Split(s[n..], '/')[0] == ""
  {
    if n == 0 {
      assert s[0..] == s;
    } else {
      SplitAtRun(s[1..], n - 1);
      assert s[1..][n - 1..] == s[n..] && [s[0]] + s[1..][..n - 1] == s[..n];
    }
  }

  /** The rewriting of a path, segment by segment: every segment after the first slash that looks like an id, and no other,
      becomes a wildcard. */
  lemma {:induction false} GeneralizesSegments(path: string)
    ensures var segments := Split(path, '/');
            Generalize(path) == Join([segments[0]] + MapEach(segments[1..], GeneralSegment), "/")
    decreases |path|
  {
    if path != "" {
      var rest := Split(path[1..], '/');
      var n := Run(path[1..]);
      if path[0] != '/' {
        GeneralizesSegments(path[1..]);
        OrdinaryCharacter(path, rest);
      } else if n >= 6 && (1 + n == |path| || path[1 + n] == '/') {
        GeneralizesSegments(path[1 + n..]);
        SplitAtRun(path[1..], n);
        assert path[1..][n..] == path[1 + n..];
        RunOfPrefix(path[1..], n);
        IdIsRun(rest[0]);
        WildSegment(rest[0], rest[1..]);
        assert rest == [rest[0]] + rest[1..];
        hide Run;
      } else {
        GeneralizesSegments(path[1..]);
        FirstSegment(path[1..]);
        IdIsRun(rest[0]);
        PlainSegment(rest);
        hide Run;
      }
    }
  }

  lemma RunOfPrefix(s: string, n: nat)
    requires n == Run(s)
    ensures Run(s[..n]) == n
  {
    if n > 0 {
      RunOfPrefix(s[1..], n - 1);
      assert s[..n][1..] == s[1..][..n - 1];
    }
  }

  lemma OrdinaryCharacter(path: string, rest: seq<string>)
    requires path != "" && path[0] != '/' && rest == Split(path[1..], '/')
    ensures var segments := Split(path, '/');
            Join([segments[0]] + MapEach(segments[1..], GeneralSegment), "/")
            == [path[0]] + Join([rest[0]] + MapEach(rest[1..], GeneralSegment), "/")
  {
    var parts := [rest[0]] + MapEach(rest[1..], GeneralSegment);
    JoinFirst([path[0]], parts, "/");
    assert ([[path[0]] + rest[0]] + rest[1..])[1..] == rest[1..] && parts[1..] == MapEach(rest[1..], GeneralSegment);
  }

  lemma WildSegment(segment: string, more: seq<string>)
    requires GeneralSegment(segment) == "*"
    ensures Join([""] + MapEach([segment] + more, GeneralSegment), "/")
         == "/*" + Join([""] + MapEach(more, GeneralSegment), "/")
  {
    hide GeneralSegment;
    var done := MapEach(more, GeneralSegment);
    MapEachSplit(segment, more, GeneralSegment);
    JoinFirst("*", [""] + done, "/");
    hide MapEach;
    assert ([""] + done)[1..] == done && "*" + "" == "*";
    assert ([""] + (["*"] + done))[1..] == ["*"] + done;
  }

  lemma PlainSegment(rest: seq<string>)
    requires rest != [] && GeneralSegment(rest[0]) == rest[0]
    ensures Join([""] + MapEach(rest, GeneralSegment), "/")
         == "/" + Join([rest[0]] + MapEach(rest[1..], GeneralSegment), "/")
  {
    hide GeneralSegment;
    hide Join;
    var more := MapEach(rest[1..], GeneralSegment);
    MapEachSplit(rest[0], rest[1..], GeneralSegment);
    assert rest == [rest[0]] + rest[1..];
    JoinEmptyFirst([rest[0]] + more);
  }

  lemma JoinEmptyFirst(parts: seq<string>)
    requires parts != []
    ensures Join([""] + parts, "/") == "/" + Join(parts, "/")
  {
    assert ([""] + parts)[1..] == parts;
    assert "" + "/" == "/";
  }

  predicate StartsWith(v: string, prefix: string, fold: char -> char) {
    |prefix| <= |v| && forall k :: 0 <= k < |prefix| ==> fold(prefix[k]) == fold(v[k])
  }

  lemma {:induction false} LiteralsPin(s: string, rest: string, v: string, pieces: seq<string>, fold: char -> char)
    requires '*' !in s && '?' !in s && Fitting(s + rest, pieces, v, fold, false)
    ensures StartsWith(v, s, fold)
    decreases |s|
  {
    if s != "" {
      var pattern := s + rest;
      FlatSplit(pieces);
      assert pattern[0] == s[0] && Fits(pattern[0], pieces[0], fold, false);
      RestFits(pattern, pieces, v, fold);
      assert pattern[1..] == s[1..] + rest;
      assert v[1..] == Flat(pieces[1..]) && v[0] == pieces[0][0];
      LiteralsPin(s[1..], rest, v[1..], pieces[1..], fold);
      forall k | 0 <= k < |s| ensures fold(s[k]) == fold(v[k]) {
        if k > 0 { assert s[k] == s[1..][k - 1] && v[k] == v[1..][k - 1]; }
      }
    }
  }

  lemma {:induction false} LiteralsMatch(s: string, v: string, fold: char -> char)
    requires '*' !in s && '?' !in s && |s| == |v| && StartsWith(v, s, fold)
    ensures Means(s, v, fold, false)
    decreases |s|
  {
    if s == "" {
      assert Fitting("", [], "", fold, false);
    } else {
      forall k | 0 <= k < |s[1..]| ensures fold(s[1..][k]) == fold(v[1..][k]) {
        assert s[1..][k] == s[1 + k] && v[1..][k] == v[1 + k];
      }
      LiteralsMatch(s[1..], v[1..], fold);
      FlatOne([v[0]]);
      assert Fitting([s[0]], [[v[0]]], [v[0]], fold, false);
      MeansAdds([s[0]], [v[0]], s[1..], v[1..], fold);
      assert [s[0]] + s[1..] == s && [v[0]] + v[1..] == v;
    }
  }

  /** A literal followed by one star matches exactly the values that start with the literal, up to case. */
  lemma PrefixPattern(s: string, v: string, fold: char -> char)
    requires '*' !in s && '?' !in s && OneLine(v)
    ensures GlobMatch(s + "*", v, fold) <==> StartsWith(v, s, fold)
  {
    CompiledGlobMeansGlob(s + "*", v, fold);
    hide GlobMatch;
    if Means(s + "*", v, fold, false) {
      var pieces :| Fitting(s + "*", pieces, v, fold, false);
      LiteralsPin(s, "*", v, pieces, fold);
    }
    if StartsWith(v, s, fold) {
      var n := |s|;
      assert v[..n] + v[n..] == v;
      PartsOneLine(v[..n], v[n..]);
      LiteralsMatch(s, v[..n], fold);
      LoneStar(v[n..], fold, false);
      MeansAdds(s, v[..n], "*", v[n..], fold);
    }
    hide Means;
    hide Fitting;
  }

  /** A suggested pattern matches exactly the addresses under the page it was suggested for. */
  lemma SuggestionCoversExactly(u: Url, v: string, fold: char -> char)
    requires OneLine(v) && '*' !in Origin(u) + u.path && '?' !in Origin(u) + u.path
    requires Web(u)
    ensures GlobMatch(SuggestUrlPattern(u), v, fold) <==> StartsWith(v, Origin(u) + StripSlashes(u.path), fold)
  {
    var kept := StripSlashes(u.path);
    StripSplits(u.path);
    assert forall c :: c in Origin(u) + kept ==> c in Origin(u) + u.path;
    PrefixPattern(Origin(u) + kept, v, fold);
  }

  /** No segment after the first slash looks like an id. */
  predicate NoIds(path: string) {
    forall k :: 1 <= k < |Split(path, '/')| ==> GeneralSegment(Split(path, '/')[k]) == Split(path, '/')[k]
  }

  lemma NoIdsKeepsPath(path: string)
    requires NoIds(path)
    ensures Generalize(path) == path
  {
    hide Generalize;
    hide GeneralSegment;
    GeneralizesSegments(path);
    SplitJoins(path, '/');
    var segments := Split(path, '/');
    assert MapEach(segments[1..], GeneralSegment) == segments[1..];
    assert [segments[0]] + segments[1..] == segments;
  }

  /** A page without id-like segments is matched by exactly the addresses that start with it. */
  lemma UrlPatternCoversExactly(u: Url, v: string, fold: char -> char)
    requires OneLine(v) && '*' !in Origin(u) + u.path && '?' !in Origin(u) + u.path
    requires NoIds(u.path)
    ensures GlobMatch(UrlPatternOf(u), v, fold) <==> StartsWith(v, Origin(u) + u.path, fold)
  {
    PrefixPattern(Origin(u) + u.path, v, fold);
    NoIdsKeepsPath(u.path);
    hide NoIds;
    if u.path != "" { assert u.path[|u.path| - 1] in Origin(u) + u.path; }
  }

  // ------------------------------------------------------------------ adjacent wildcards

  predicate DoubleStar(s: string) {
    |s| >= 2 && ((s[0] == '*' && s[1] == '*') || DoubleStar(s[1..]))
  }

  lemma {:induction false} SkipsPlain(s: string, n: nat)
    requires n <= |s| && forall k :: 0 <= k < n ==> s[k] != '*'
    ensures DoubleStar(s) <==> DoubleStar(s[n..])
    decreases n
  {
    if n == 0 {
      assert s[0..] == s;
    } else {
      SkipsPlain(s[1..], n - 1);
      assert s[1..][n - 1..] == s[n..];
    }
  }

  lemma {:induction false} RunIsPlain(s: string)
    ensures forall k :: 0 <= k < Run(s) ==> s[k] != '*'
  {
    if s != "" && HexOrDash(s[0]) {
      RunIsPlain(s[1..]);
      forall k | 0 <= k < Run(s) ensures s[k] != '*' { if k > 0 { assert s[k] == s[1..][k - 1]; } }
    }
  }

  lemma GeneralizeStarts(path: string)
    ensures path == "" <==> Generalize(path) == ""
    ensures path != "" ==> Generalize(path)[0] == path[0]
  {
  }

  lemma DoubleStarStep(c: char, rest: string)
    ensures DoubleStar([c] + rest) <==> (c == '*' && rest != "" && rest[0] == '*') || DoubleStar(rest)
  {
    assert ([c] + rest)[1..] == rest;
  }

  /** A wildcard for a segment brings no double star of its own. */
  lemma WildKeepsDoubleStars(path: string, n: nat, rest: string, general: string)
    requires path != "" && path[0] == '/' && n == Run(path[1..]) && rest == path[1 + n..]
    requires general != "" ==> general[0] == '/'
    requires DoubleStar(general) <==> DoubleStar(rest)
    ensures DoubleStar("/*" + general) <==> DoubleStar(path)
  {
    RunIsPlain(path[1..]);
    SkipsPlain(path, 1 + n);
    hide DoubleStar;
    hide Run;
    DoubleStarStep('*', general);
    DoubleStarStep('/', ['*'] + general);
    assert ['/'] + (['*'] + general) == "/*" + general;
  }

  lemma {:induction false} GeneralizeKeepsDoubleStars(path: string)
    ensures DoubleStar(Generalize(path)) <==> DoubleStar(path)
    decreases |path|
  {
    hide DoubleStar;
    hide Run;
    if path != "" {
      var n := Run(path[1..]);
      if path[0] == '/' && n >= 6 && (1 + n == |path| || path[1 + n] == '/') {
        var rest := path[1 + n..];
        GeneralizeKeepsDoubleStars(rest);
        GeneralizeStarts(rest);
        WildKeepsDoubleStars(path, n, rest, Generalize(rest));
      } else {
        GeneralizeKeepsDoubleStars(path[1..]);
        GeneralizeStarts(path[1..]);
        DoubleStarStep(path[0], Generalize(path[1..]));
        DoubleStarStep(path[0], path[1..]);
        assert [path[0]] + path[1..] == path;
      }
    }
  }

  lemma {:induction false} OneMoreStar(s: string)
    requires s != "" && s[|s| - 1] != '*'
    ensures DoubleStar(s + "*") <==> DoubleStar(s)
    decreases |s|
  {
    DoubleStarStep(s[0], s[1..]);
    assert [s[0]] + s[1..] == s;
    if |s| == 1 {
      DoubleStarStep(s[0], "*");
      assert s + "*" == [s[0]] + "*";
    } else {
      OneMoreStar(s[1..]);
      DoubleStarStep(s[0], s[1..] + "*");
      assert s + "*" == [s[0]] + (s[1..] + "*");
    }
  }

  /** A generated pattern never holds two adjacent wildcards, except when the page's own path does. */
  lemma DoubleStarOnlyFromThePage(u: Url)
    requires Origin(u) != "" && '*' !in Origin(u)
    ensures DoubleStar(UrlPatternOf(u)) <==> DoubleStar(u.path)
  {
    var path := Generalize(u.path);
    GeneralizeKeepsDoubleStars(u.path);
    hide Generalize;
    var whole := Origin(u) + path;
    SkipsPlain(whole, |Origin(u)|);
    assert whole[|Origin(u)|..] == path;
    if path == "" || path[|path| - 1] != '*' {
      OneMoreStar(whole);
    }
    hide DoubleStar;
  }

  /** A page whose own path holds two stars in a row: the generated pattern does too. */
  lemma DoubleStarAtAPage()
    ensures DoubleStar(UrlPatternOf(Url("https:", "https://a.example", false, "/x**", "", "")))
  {
    DoubleStarOnlyFromThePage(Url("https:", "https://a.example", false, "/x**", "", ""));
    assert "/x**"[1..] == "x**" && "x**"[1..] == "**";
    hide UrlPatternOf;
  }
}
