/** Two glob-to-regex compilers. They build the text of a regular expression; its meaning is given by parsing and running
    that text. Strings are UTF-16 code units of the basic plane; `fold` is the regex engine's case canonicalisation. */
module Globs {
  import opened Strings
  import opened Wrappers

  // ------------------------------------------------------------------ strings

  function Map(s: string, f: char -> string): string {
    if s == "" then "" else f(s[0]) + Map(s[1..], f)
  }

  /** `s.replace(/c/g, by)` for a single character. */
  function ReplaceAll(s: string, c: char, text: string): string { Map(s, x => if x == c then text else [x]) }

  function MapEach(parts: seq<string>, f: string -> string): (r: seq<string>)
    ensures |r| == |parts| && forall k :: 0 <= k < |r| ==> r[k] == f(parts[k])
  {
    if parts == [] then [] else [f(parts[0])] + MapEach(parts[1..], f)
  }

  // ------------------------------------------------------------------ the two compilers

  const SPECIAL := ".+^${}()|[]\\"

  function Escape(s: string): string { Map(s, c => if c in SPECIAL then ['\\', c] else [c]) }

  /** The widget: escape everything but the wildcards, then rewrite the wildcards. */
  function WidgetSource(pattern: string): string {
    "^" + ReplaceAll(ReplaceAll(Escape(pattern), '*', ".*"), '?', ".") + "$"
  }

  function EscapeAll(s: string): string { Map(s, c => if c in SPECIAL || c == '*' || c == '?' then ['\\', c] else [c]) }

  function Chunk(s: string): string { Join(MapEach(Split(s, '?'), EscapeAll), ".") }

  /** The extension: split at the wildcards, escape the pieces, join them up again. */
  function ExtensionSource(pattern: string): string { "^" + Join(MapEach(Split(pattern, '*'), Chunk), ".*") + "$" }

  // ------------------------------------------------------------------ what a regex source means

  datatype Atom = Lit(c: char) | AnyOne | AnyRun

  predicate Syntax(c: char) { c in SPECIAL || c == '*' || c == '?' }

  /** The fragment of the regex grammar either compiler writes: escaped and plain characters, `.` and `.*`. */
  function ParseBody(s: string): Option<seq<Atom>>
    decreases |s|
  {
    if s == "" then Some([])
    else if s[0] == '\\' && |s| >= 2 then Prepend(Lit(s[1]), ParseBody(s[2..]))
    else if s[0] == '.' && |s| >= 2 && s[1] == '*' then Prepend(AnyRun, ParseBody(s[2..]))
    else if s[0] == '.' then Prepend(AnyOne, ParseBody(s[1..]))
    else if Syntax(s[0]) then None
    else Prepend(Lit(s[0]), ParseBody(s[1..]))
  }

  function Prepend(a: Atom, rest: Option<seq<Atom>>): Option<seq<Atom>> {
    if rest.Some? then Some([a] + rest.value) else None
  }

  function Parse(source: string): Option<seq<Atom>> {
    if |source| >= 2 && source[0] == '^' && source[|source| - 1] == '$'
    then ParseBody(source[1..|source| - 1]) else None
  }

  /** `.` matches any code unit but these. */
  predicate LineTerminator(c: char) { c == '\n' || c == '\r' || c == '\U{2028}' || c == '\U{2029}' }

  predicate OneLine(v: string) { forall k :: 0 <= k < |v| ==> !LineTerminator(v[k]) }

  /** The engine's backtracking search, anchored at both ends. */
  predicate Accepts(atoms: seq<Atom>, v: string, fold: char -> char)
    decreases |atoms| + |v|
  {
    if atoms == [] then v == ""
    else
      match atoms[0]
      case Lit(c) => v != "" && fold(c) == fold(v[0]) && Accepts(atoms[1..], v[1..], fold)
      case AnyOne => v != "" && !LineTerminator(v[0]) && Accepts(atoms[1..], v[1..], fold)
      case AnyRun => Accepts(atoms[1..], v, fold) || (v != "" && !LineTerminator(v[0]) && Accepts(atoms, v[1..], fold))
  }

  predicate Test(source: string, v: string, fold: char -> char) {
    Parse(source).Some? && Accepts(Parse(source).value, v, fold)
  }

  predicate GlobMatch(pattern: string, v: string, fold: char -> char) { Test(WidgetSource(pattern), v, fold) }

  predicate WildcardMatch(pattern: string, v: string, fold: char -> char) {
    pattern != "" && Test(ExtensionSource(pattern), v, fold)
  }

  // ------------------------------------------------------------------ what a glob means

  function Flat(pieces: seq<string>): string {
    if pieces == [] then "" else pieces[0] + Flat(pieces[1..])
  }

  /** What one pattern character may stand for. `dotAll`: wildcards cross line terminators too. */
  predicate Fits(c: char, piece: string, fold: char -> char, dotAll: bool) {
    if c == '*' then dotAll || OneLine(piece)
    else if c == '?' then |piece| == 1 && (dotAll || OneLine(piece))
    else |piece| == 1 && fold(c) == fold(piece[0])
  }

  predicate Fitting(pattern: string, pieces: seq<string>, v: string, fold: char -> char, dotAll: bool) {
    |pieces| == |pattern| && Flat(pieces) == v
    && forall k :: 0 <= k < |pattern| ==> Fits(pattern[k], pieces[k], fold, dotAll)
  }

  /** The whole value splits into one piece per pattern character, each fitting it. */
  ghost predicate Means(pattern: string, v: string, fold: char -> char, dotAll: bool) {
    exists pieces :: Fitting(pattern, pieces, v, fold, dotAll)
  }

  // ------------------------------------------------------------------ the compilers agree

  function AtomOf(c: char): Atom { if c == '*' then AnyRun else if c == '?' then AnyOne else Lit(c) }

  function Atoms(pattern: string): (r: seq<Atom>)
    ensures |r| == |pattern| && forall k :: 0 <= k < |r| ==> r[k] == AtomOf(pattern[k])
  {
    seq(|pattern|, k requires 0 <= k < |pattern| => AtomOf(pattern[k]))
  }

  /** One character at a time, the text both compilers end up with. */
  function Text(c: char): string {
    if c == '*' then ".*" else if c == '?' then "." else if c in SPECIAL then ['\\', c] else [c]
  }

  lemma {:induction false} MapAdds(s: string, t: string, f: char -> string)
    ensures Map(s + t, f) == Map(s, f) + Map(t, f)
  {
    if s == "" {
      assert s + t == t;
    } else {
      assert (s + t)[1..] == s[1..] + t && (s + t)[0] == s[0];
      MapAdds(s[1..], t, f);
    }
  }

  lemma WidgetWritesOne(c: char)
    ensures ReplaceAll(ReplaceAll(if c in SPECIAL then ['\\', c] else [c], '*', ".*"), '?', ".") == Text(c)
  {
    OneOrTwo(c, '*', ".*");
    OneOrTwo('\\', '*', ".*");
    OneOrTwo(c, '?', ".");
    OneOrTwo('\\', '?', ".");
    OneOrTwo('.', '?', ".");
    OneOrTwo('*', '?', ".");
    assert ['\\'] + [c] == ['\\', c] && ['.'] + ['*'] == ".*";
    ReplaceAdds(['\\'], [c], '*', ".*");
    ReplaceAdds(['\\'], [c], '?', ".");
    ReplaceAdds(['.'], ['*'], '?', ".");
    hide ReplaceAll;
  }

  lemma MapOne(x: char, f: char -> string)
    ensures Map([x], f) == f(x)
  {
    assert Map([x][1..], f) == "";
  }

  lemma OneOrTwo(x: char, c: char, text: string)
    ensures ReplaceAll([x], c, text) == if x == c then text else [x]
  {
    MapOne(x, y => if y == c then text else [y]);
  }

  lemma ReplaceAdds(s: string, t: string, c: char, text: string)
    ensures ReplaceAll(s + t, c, text) == ReplaceAll(s, c, text) + ReplaceAll(t, c, text)
  {
    MapAdds(s, t, x => if x == c then text else [x]);
  }

  lemma {:induction false} WidgetWrites(p: string)
    ensures ReplaceAll(ReplaceAll(Escape(p), '*', ".*"), '?', ".") == Map(p, Text)
  {
    if p != "" {
      var head := if p[0] in SPECIAL then ['\\', p[0]] else [p[0]];
      assert Escape(p) == head + Escape(p[1..]);
      WidgetWrites(p[1..]);
      WidgetWritesOne(p[0]);
      ReplaceAdds(head, Escape(p[1..]), '*', ".*");
      ReplaceAdds(ReplaceAll(head, '*', ".*"), ReplaceAll(Escape(p[1..]), '*', ".*"), '?', ".");
      hide ReplaceAll;
      hide Escape;
    }
  }

  lemma MapEachSplit(head: string, tail: seq<string>, f: string -> string)
    ensures MapEach([head] + tail, f) == [f(head)] + MapEach(tail, f)
  {
    assert ([head] + tail)[1..] == tail;
  }

  lemma EscapesOne(c: char, s: string)
    requires c != '*' && c != '?'
    ensures EscapeAll([c] + s) == Text(c) + EscapeAll(s)
  {
    assert ([c] + s)[1..] == s;
  }

  lemma {:induction false} ChunkWrites(s: string)
    requires '*' !in s
    ensures Chunk(s) == Map(s, Text)
  {
    if s != "" {
      var rest := Split(s[1..], '?');
      ChunkWrites(s[1..]);
      ChunkStep(s, rest);
    }
    hide EscapeAll;
    hide Text;
  }

  lemma ChunkStep(s: string, rest: seq<string>)
    requires s != "" && s[0] != '*' && rest == Split(s[1..], '?')
    ensures Chunk(s) == Text(s[0]) + Join(MapEach(rest, EscapeAll), ".")
  {
    hide EscapeAll;
    var done := MapEach(rest, EscapeAll);
    if s[0] == '?' {
      MapEachSplit("", rest, EscapeAll);
      EmptyEscapes();
      assert ([""] + done)[1..] == done;
    } else {
      EscapesOne(s[0], rest[0]);
      MapEachSplit([s[0]] + rest[0], rest[1..], EscapeAll);
      MapEachSplit(rest[0], rest[1..], EscapeAll);
      assert [rest[0]] + rest[1..] == rest;
      hide MapEach;
      hide Split;
      hide Text;
      assert done[1..] == MapEach(rest[1..], EscapeAll) && done[0] == EscapeAll(rest[0]);
      JoinFirst(Text(s[0]), done, ".");
    }
  }

  lemma EmptyEscapes()
    ensures EscapeAll("") == ""
  {
  }

  lemma JoinFirst(head: string, parts: seq<string>, sep: string)
    requires parts != []
    ensures Join([head + parts[0]] + parts[1..], sep) == head + Join(parts, sep)
  {
    var more := [head + parts[0]] + parts[1..];
    assert more[1..] == parts[1..];
  }

  lemma {:induction false} ExtensionWrites(p: string)
    ensures Join(MapEach(Split(p, '*'), Chunk), ".*") == Map(p, Text)
    ensures '*' !in Split(p, '*')[0]
  {
    if p != "" {
      ExtensionWrites(p[1..]);
      var rest := Split(p[1..], '*');
      var done := MapEach(rest, Chunk);
      if p[0] == '*' {
        assert MapEach(Split(p, '*'), Chunk) == [Chunk("")] + done;
        ChunkWrites("");
      } else {
        var first := [p[0]] + rest[0];
        ChunkWrites(first);
        ChunkWrites(rest[0]);
        assert first[1..] == rest[0];
        assert MapEach(Split(p, '*'), Chunk) == [Text(p[0]) + done[0]] + done[1..];
        JoinFirst(Text(p[0]), done, ".*");
      }
    } else {
      ChunkWrites("");
    }
  }

  /** The two independent translations write the very same regular expression for every pattern. */
  lemma CompilersAgree(pattern: string)
    ensures WidgetSource(pattern) == ExtensionSource(pattern)
  {
    WidgetWrites(pattern);
    ExtensionWrites(pattern);
  }

  // ------------------------------------------------------------------ the compiled text means the glob

  lemma TextStarts(p: string)
    ensures Map(p, Text) != "" ==> Map(p, Text)[0] != '*'
  {
    if p != "" { assert Text(p[0]) != ""; }
  }

  lemma {:induction false} TextParses(p: string)
    ensures ParseBody(Map(p, Text)) == Some(Atoms(p))
  {
    if p != "" {
      TextParses(p[1..]);
      TextStarts(p[1..]);
      var rest := Map(p[1..], Text);
      assert Map(p, Text) == Text(p[0]) + rest;
      ParseStep(p[0], rest);
      assert Atoms(p) == [AtomOf(p[0])] + Atoms(p[1..]);
      hide ParseBody;
      hide Text;
    } else {
      assert Atoms(p) == [];
    }
  }

  lemma ParseStep(c: char, rest: string)
    requires rest != "" ==> rest[0] != '*'
    ensures ParseBody(Text(c) + rest) == Prepend(AtomOf(c), ParseBody(rest))
  {
    var s := Text(c) + rest;
    if c in SPECIAL || c == '*' {
      assert s[2..] == rest;
    } else {
      assert s[1..] == rest;
    }
  }

  lemma CompiledParses(pattern: string)
    ensures Parse(WidgetSource(pattern)) == Some(Atoms(pattern))
    ensures Parse(ExtensionSource(pattern)) == Some(Atoms(pattern))
  {
    CompilersAgree(pattern);
    WidgetWrites(pattern);
    TextParses(pattern);
    var body := Map(pattern, Text);
    var source := "^" + body + "$";
    assert source[1..|source| - 1] == body;
    hide ParseBody;
  }

  /** The pieces the engine's search settles on. */
  function Pieces(p: string, v: string, fold: char -> char): seq<string>
    requires Accepts(Atoms(p), v, fold)
    decreases |p| + |v|
  {
    if p == "" then []
    else
      AtomsTail(p);
      if p[0] != '*' then [[v[0]]] + Pieces(p[1..], v[1..], fold)
      else if Accepts(Atoms(p[1..]), v, fold) then [""] + Pieces(p[1..], v, fold)
      else
        var rest := Pieces(p, v[1..], fold);
        if rest == [] then [] else [[v[0]] + rest[0]] + rest[1..]
  }

  lemma AtomsTail(p: string)
    requires p != ""
    ensures Atoms(p)[1..] == Atoms(p[1..])
  {
  }

  lemma FlatFirst(head: string, pieces: seq<string>)
    ensures Flat([head] + pieces) == head + Flat(pieces)
  {
    assert ([head] + pieces)[1..] == pieces;
  }

  lemma FlatSplit(pieces: seq<string>)
    requires pieces != []
    ensures Flat(pieces) == pieces[0] + Flat(pieces[1..])
  {
  }

  lemma FitFirst(p: string, head: string, pieces: seq<string>, v: string, fold: char -> char, dotAll: bool)
    requires p != "" && Fits(p[0], head, fold, dotAll) && Fitting(p[1..], pieces, v, fold, dotAll)
    ensures Fitting(p, [head] + pieces, head + v, fold, dotAll)
  {
    FlatFirst(head, pieces);
    forall k | 0 <= k < |p| ensures Fits(p[k], ([head] + pieces)[k], fold, dotAll) {
      if k > 0 { assert p[k] == p[1..][k - 1]; }
    }
    hide Fits;
  }

  lemma {:induction false} PiecesFit(p: string, v: string, fold: char -> char)
    requires Accepts(Atoms(p), v, fold)
    ensures Fitting(p, Pieces(p, v, fold), v, fold, false)
    decreases |p| + |v|
  {
    hide Fitting;
    if p == "" {
      assert Atoms(p) == [] && v == "";
      NoPieces(fold);
    } else {
      AtomsTail(p);
      if p[0] != '*' {
        PiecesFit(p[1..], v[1..], fold);
        FitFirst(p, [v[0]], Pieces(p[1..], v[1..], fold), v[1..], fold, false);
        assert [v[0]] + v[1..] == v;
      } else if Accepts(Atoms(p[1..]), v, fold) {
        PiecesFit(p[1..], v, fold);
        FitFirst(p, "", Pieces(p[1..], v, fold), v, fold, false);
        assert "" + v == v;
      } else {
        PiecesFit(p, v[1..], fold);
        StarTakesOne(p, Pieces(p, v[1..], fold), v, fold);
      }
    }
  }

  lemma NoPieces(fold: char -> char)
    ensures Fitting("", [], "", fold, false)
  {
  }

  lemma StarTakesOne(p: string, pieces: seq<string>, v: string, fold: char -> char)
    requires p != "" && p[0] == '*' && v != "" && !LineTerminator(v[0]) && Fitting(p, pieces, v[1..], fold, false)
    ensures pieces != [] && Fitting(p, [[v[0]] + pieces[0]] + pieces[1..], v, fold, false)
  {
    FlatSplit(pieces);
    FlatFirst([v[0]] + pieces[0], pieces[1..]);
    assert [v[0]] + (pieces[0] + Flat(pieces[1..])) == v;
  }

  lemma {:induction false} FittingAccepts(p: string, pieces: seq<string>, v: string, fold: char -> char)
    requires Fitting(p, pieces, v, fold, false)
    ensures Accepts(Atoms(p), v, fold)
    decreases |p| + |v|
  {
    if p != "" {
      AtomsTail(p);
      FlatSplit(pieces);
      assert Fits(p[0], pieces[0], fold, false);
      if p[0] == '*' && pieces[0] != "" {
        FlatFirst(pieces[0][1..], pieces[1..]);
        assert v[1..] == pieces[0][1..] + Flat(pieces[1..]) && v[0] == pieces[0][0];
        FittingAccepts(p, [pieces[0][1..]] + pieces[1..], v[1..], fold);
      } else {
        var n := |pieces[0]|;
        assert v[n..] == Flat(pieces[1..]);
        RestFits(p, pieces, v, fold);
        FittingAccepts(p[1..], pieces[1..], v[n..], fold);
        assert n > 0 ==> v[0] == pieces[0][0] && n == 1;
        assert n == 0 ==> v[n..] == v;
      }
    }
  }

  lemma RestFits(p: string, pieces: seq<string>, v: string, fold: char -> char)
    requires p != "" && Fitting(p, pieces, v, fold, false)
    ensures Fitting(p[1..], pieces[1..], Flat(pieces[1..]), fold, false)
  {
    hide Fits;
    hide Flat;
  }

  /** Compiling a glob preserves its meaning: the compiled expression accepts exactly the values that split into pieces, one
      for each pattern character, where `*` is any run without line terminators, `?` any one character that is not one, and
      anything else itself up to case. */
  lemma CompiledGlobMeansGlob(pattern: string, v: string, fold: char -> char)
    ensures GlobMatch(pattern, v, fold) <==> Means(pattern, v, fold, false)
  {
    CompiledParses(pattern);
    hide Accepts;
    hide Fitting;
    hide Parse;
    if GlobMatch(pattern, v, fold) { PiecesFit(pattern, v, fold); }
    if Means(pattern, v, fold, false) {
      var pieces :| Fitting(pattern, pieces, v, fold, false);
      FittingAccepts(pattern, pieces, v, fold);
    }
  }

  /** The extension's matcher differs from the widget's at one input only: the empty pattern on the empty value. */
  lemma MatchersAgree(pattern: string, v: string, fold: char -> char)
    ensures (WildcardMatch(pattern, v, fold) <==> GlobMatch(pattern, v, fold)) <==> !(pattern == "" && v == "")
  {
    CompilersAgree(pattern);
    hide WidgetSource;
    hide ExtensionSource;
    if pattern == "" { EmptyPattern(v, fold); }
  }

  lemma EmptyPattern(v: string, fold: char -> char)
    ensures GlobMatch("", v, fold) <==> v == ""
  {
    CompiledParses("");
    assert Atoms("") == [];
  }

  // ------------------------------------------------------------------ against the backend's fnmatch

  lemma {:induction false} PiecesOfOneLine(pieces: seq<string>)
    requires OneLine(Flat(pieces))
    ensures forall k :: 0 <= k < |pieces| ==> OneLine(pieces[k])
  {
    if pieces != [] {
      var all := Flat(pieces);
      var n := |pieces[0]|;
      FlatSplit(pieces);
      assert all[..n] == pieces[0] && all[n..] == Flat(pieces[1..]);
      forall j | 0 <= j < |all[n..]| ensures !LineTerminator(all[n..][j]) { assert all[n..][j] == all[n + j]; }
      forall j | 0 <= j < n ensures !LineTerminator(pieces[0][j]) { assert pieces[0][j] == all[j]; }
      PiecesOfOneLine(pieces[1..]);
      assert forall k :: 0 < k < |pieces| ==> pieces[k] == pieces[1..][k - 1];
    }
  }

  lemma LoneStar(v: string, fold: char -> char, dotAll: bool)
    ensures Means("*", v, fold, dotAll) <==> dotAll || OneLine(v)
  {
    assert Flat([v][1..]) == "" && Flat([v]) == v + "" == v;
    if dotAll || OneLine(v) { assert Fitting("*", [v], v, fold, dotAll); }
    if Means("*", v, fold, dotAll) {
      var pieces :| Fitting("*", pieces, v, fold, dotAll);
      FlatSplit(pieces);
      assert pieces[1..] == [] && Flat([]) == "" && pieces[0] + "" == pieces[0] == v;
      assert Fits("*"[0], pieces[0], fold, dotAll);
    }
  }

  /** A character a pattern without classes takes literally, on both sides. */
  predicate Literal(c: char) { c != '*' && c != '?' && c != '[' }

  /** The two sides tell the characters of this value from other literals alike. `server` is how the server folds case:
      not at all where tours, surveys and checklists call `fnmatch` on a POSIX host, to lower case for guides. */
  ghost predicate FoldAlike(v: string, fold: char -> char, server: char -> char) {
    forall k, d :: 0 <= k < |v| && Literal(d) ==> SameAt(v[k], d, fold, server)
  }

  predicate SameAt(x: char, d: char, fold: char -> char, server: char -> char) {
    fold(d) == fold(x) <==> server(d) == server(x)
  }

  lemma {:induction false} PieceOfValue(pieces: seq<string>, k: nat)
    requires k < |pieces| && |pieces[k]| == 1
    ensures exists j :: 0 <= j < |Flat(pieces)| && Flat(pieces)[j] == pieces[k][0]
  {
    FlatSplit(pieces);
    if k == 0 {
      assert Flat(pieces)[0] == pieces[0][0];
    } else {
      var n := |pieces[0]|;
      PieceOfValue(pieces[1..], k - 1);
      var j :| 0 <= j < |Flat(pieces[1..])| && Flat(pieces[1..])[j] == pieces[k][0];
      assert Flat(pieces)[n + j] == pieces[k][0];
    }
  }

  lemma FitsAlike(pattern: string, pieces: seq<string>, v: string, fold: char -> char, server: char -> char)
    requires OneLine(v) && FoldAlike(v, fold, server) && '[' !in pattern && |pieces| == |pattern| && Flat(pieces) == v
    ensures Fitting(pattern, pieces, v, fold, false) <==> Fitting(pattern, pieces, v, server, true)
  {
    PiecesOfOneLine(pieces);
    forall k | 0 <= k < |pattern|
      ensures Fits(pattern[k], pieces[k], fold, false) <==> Fits(pattern[k], pieces[k], server, true)
    {
      assert pattern[k] in pattern;
      if Literal(pattern[k]) && |pieces[k]| == 1 {
        PieceOfValue(pieces, k);
        var j :| 0 <= j < |v| && v[j] == pieces[k][0];
        assert SameAt(v[j], pattern[k], fold, server);
      }
    }
    hide Fits;
    hide Flat;
  }

  lemma MeansAlike(pattern: string, v: string, fold: char -> char, server: char -> char)
    requires OneLine(v) && FoldAlike(v, fold, server) && '[' !in pattern
    ensures Means(pattern, v, fold, false) <==> Means(pattern, v, server, true)
  {
    if Means(pattern, v, fold, false) {
      var pieces :| Fitting(pattern, pieces, v, fold, false);
      FitsAlike(pattern, pieces, v, fold, server);
    }
    if Means(pattern, v, server, true) {
      var pieces :| Fitting(pattern, pieces, v, server, true);
      FitsAlike(pattern, pieces, v, fold, server);
    }
    hide Flat;
    hide Fits;
    hide FoldAlike;
  }

  function Questions(n: nat): (s: string)
    ensures |s| == n && forall k :: 0 <= k < n ==> s[k] == '?'
  {
    seq(n, k => '?')
  }

  /** A pattern that asks about one character only. */
  function Asks(n: nat, k: nat, d: char): (s: string)
    requires k < n
    ensures |s| == n && s[k] == d && forall j :: 0 <= j < n && j != k ==> s[j] == '?'
  {
    Questions(k) + [d] + Questions(n - k - 1)
  }

  function Singles(v: string): (r: seq<string>)
    ensures |r| == |v| && forall k :: 0 <= k < |r| ==> r[k] == [v[k]]
  {
    seq(|v|, k requires 0 <= k < |v| => [v[k]])
  }

  lemma {:induction false} SinglesFlat(v: string)
    ensures Flat(Singles(v)) == v
  {
    if v != "" {
      SinglesFlat(v[1..]);
      FlatSplit(Singles(v));
      assert Singles(v)[1..] == Singles(v[1..]);
      assert [v[0]] + v[1..] == v;
    }
  }

  lemma {:induction false} OnlySingles(pieces: seq<string>)
    requires forall k :: 0 <= k < |pieces| ==> |pieces[k]| == 1
    ensures pieces == Singles(Flat(pieces))
  {
    if pieces != [] {
      OnlySingles(pieces[1..]);
      FlatSplit(pieces);
      var v := Flat(pieces);
      assert v[1..] == Flat(pieces[1..]) && v[0] == pieces[0][0] && pieces[0] == [v[0]];
      forall k | 0 <= k < |pieces| ensures pieces[k] == [v[k]] {
        if k > 0 { assert pieces[k] == pieces[1..][k - 1] == [v[1..][k - 1]]; }
      }
      assert |Singles(v)| == |pieces|;
    } else {
      assert Singles("") == [];
    }
  }

  lemma AsksOneCharacter(v: string, k: nat, d: char, fold: char -> char, dotAll: bool)
    requires k < |v| && Literal(d) && OneLine(v)
    ensures Means(Asks(|v|, k, d), v, fold, dotAll) <==> fold(d) == fold(v[k])
  {
    var pattern := Asks(|v|, k, d);
    if fold(d) == fold(v[k]) {
      SinglesFlat(v);
      assert Fitting(pattern, Singles(v), v, fold, dotAll);
    }
    if Means(pattern, v, fold, dotAll) {
      var pieces :| Fitting(pattern, pieces, v, fold, dotAll);
      forall j | 0 <= j < |pieces| ensures |pieces[j]| == 1 { assert Fits(pattern[j], pieces[j], fold, dotAll); }
      OnlySingles(pieces);
      assert Fits(pattern[k], pieces[k], fold, dotAll) && pieces[k] == [v[k]];
    }
    hide Flat;
  }

  /** Client and server agree on every pattern without character classes exactly for the values without line terminators whose
      characters both sides fold alike. On any other value the pattern `*`, or one literal among question marks, tells them
      apart. */
  lemma AgreesWithServerExactly(v: string, fold: char -> char, server: char -> char)
    ensures (forall pattern :: '[' !in pattern ==> (GlobMatch(pattern, v, fold) <==> Means(pattern, v, server, true)))
            <==> OneLine(v) && FoldAlike(v, fold, server)
  {
    hide GlobMatch;
    hide Means;
    hide OneLine;
    if OneLine(v) && FoldAlike(v, fold, server) {
      forall pattern | '[' !in pattern ensures GlobMatch(pattern, v, fold) <==> Means(pattern, v, server, true) {
        CompiledGlobMeansGlob(pattern, v, fold);
        MeansAlike(pattern, v, fold, server);
      }
    } else if !OneLine(v) {
      CompiledGlobMeansGlob("*", v, fold);
      LoneStar(v, server, true);
      LoneStar(v, fold, false);
    } else {
      var k, d :| 0 <= k < |v| && Literal(d) && !SameAt(v[k], d, fold, server);
      var pattern := Asks(|v|, k, d);
      CompiledGlobMeansGlob(pattern, v, fold);
      AsksOneCharacter(v, k, d, fold, false);
      AsksOneCharacter(v, k, d, server, true);
      assert '[' !in pattern;
    }
  }

  /** A server that keeps case, as `fnmatch` does on a POSIX host, agrees exactly where no other literal folds to a character
      of the value. */
  lemma AgreesWithFnmatchExactly(v: string, fold: char -> char)
    ensures (forall pattern :: '[' !in pattern ==> (GlobMatch(pattern, v, fold) <==> Means(pattern, v, c => c, true)))
            <==> OneLine(v) && forall k, d :: 0 <= k < |v| && Literal(d) && d != v[k] ==> fold(d) != fold(v[k])
  {
    var keep := (c: char) => c;
    AgreesWithServerExactly(v, fold, keep);
    hide GlobMatch;
    hide OneLine;
    forall pattern ensures Means(pattern, v, keep, true) <==> Means(pattern, v, c => c, true) {
      SameMeaning(pattern, v, keep, c => c);
    }
    hide Means;
    if FoldAlike(v, fold, keep) {
      forall k, d | 0 <= k < |v| && Literal(d) && d != v[k] ensures fold(d) != fold(v[k]) {
        assert SameAt(v[k], d, fold, keep);
      }
    }
  }

  lemma SameMeaning(pattern: string, v: string, f: char -> char, g: char -> char)
    requires forall c :: f(c) == g(c)
    ensures Means(pattern, v, f, true) <==> Means(pattern, v, g, true)
  {
    if Means(pattern, v, f, true) {
      var pieces :| Fitting(pattern, pieces, v, f, true);
      assert Fitting(pattern, pieces, v, g, true);
    }
    if Means(pattern, v, g, true) {
      var pieces :| Fitting(pattern, pieces, v, g, true);
      assert Fitting(pattern, pieces, v, f, true);
    }
    hide Flat;
  }

  /** So a page whose address has a capital letter is matched by a lower-case pattern in the browser and not on the server. */
  lemma CapitalsTellThemApart(fold: char -> char)
    requires fold('a') == fold('A')
    ensures GlobMatch("a", "A", fold) && !Means("a", "A", c => c, true)
  {
    CompiledGlobMeansGlob("a", "A", fold);
    assert Asks(1, 0, 'a') == "a";
    AsksOneCharacter("A", 0, 'a', fold, false);
    AsksOneCharacter("A", 0, 'a', c => c, true);
    hide GlobMatch;
    hide Means;
  }
}
