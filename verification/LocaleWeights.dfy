/** How language tags and an Accept-Language header read, told from their text: what a tag is, which locale it names, what weight
    a segment carries, and which locale comes before which. */
module LocaleWeights {
  import opened Strings
  import opened Wrappers
  import opened Locales
  import opened LocaleTheorems

  predicate Spaces(s: string) { forall c :: c in s ==> Space(c) }

  // ------------------------------------------------------------------ stripping

  /** No space at either end. */
  predicate Trim(s: string) { s != "" ==> !Space(s[0]) && !Space(s[|s| - 1]) }

  lemma {:induction false} StripLeftSplits(s: string) returns (a: string)
    ensures Spaces(a) && s == a + StripLeft(s) && (StripLeft(s) != "" ==> !Space(StripLeft(s)[0]))
    decreases |s|
  {
    a := "";
    if s != "" && Space(s[0]) {
      a := StripLeftSplits(s[1..]);
      a := [s[0]] + a;
    }
  }

  lemma {:induction false} StripRightSplits(s: string) returns (c: string)
    ensures Spaces(c) && s == StripRight(s) + c && (StripRight(s) != "" ==> !Space(StripRight(s)[|StripRight(s)| - 1]))
    decreases |s|
  {
    c := "";
    if s != "" && Space(s[|s| - 1]) {
      c := StripRightSplits(s[..|s| - 1]);
      c := c + [s[|s| - 1]];
    }
  }

  /** A text is its stripped self between two stretches of space. */
  lemma StripSplits(s: string) returns (a: string, c: string)
    ensures Spaces(a) && Spaces(c) && s == a + Strip(s) + c && Trim(Strip(s))
  {
    a := StripLeftSplits(s);
    c := StripRightSplits(StripLeft(s));
    hide StripLeft;
    hide StripRight;
    var x := StripRight(StripLeft(s));
    if x != "" { assert StripLeft(s)[0] == x[0]; }
  }

  lemma {:induction false} StripsLeft(a: string, s: string)
    requires Spaces(a)
    ensures StripLeft(a + s) == StripLeft(s)
    decreases |a|
  {
    if a == "" {
      assert a + s == s;
    } else {
      assert (a + s)[1..] == a[1..] + s;
      assert a[0] in a;
      StripsLeft(a[1..], s);
    }
  }

  lemma {:induction false} StripsRight(s: string, c: string)
    requires Spaces(c)
    ensures StripRight(s + c) == StripRight(s)
    decreases |c|
  {
    if c == "" {
      assert s + c == s;
    } else {
      var n := |c| - 1;
      assert (s + c)[..|s + c| - 1] == s + c[..n];
      assert c[n] in c;
      StripsRight(s, c[..n]);
    }
  }

  /** Space around a text does not matter to its stripping, and a text without any is its own. */
  lemma Strips(a: string, s: string, c: string)
    requires Spaces(a) && Spaces(c) && Trim(s)
    ensures Strip(a + s + c) == s
  {
    assert a + s + c == a + (s + c);
    StripsLeft(a, s + c);
    if s == "" {
      assert s + c == c;
      StripsLeft(c, "");
      assert c + "" == c;
    } else {
      assert (s + c)[0] == s[0];
      StripsRight(s, c);
    }
  }

  lemma StripsSame(a: string, s: string, c: string)
    requires Spaces(a) && Spaces(c)
    ensures Strip(a + s + c) == Strip(s)
  {
    var a', c' := StripSplits(s);
    assert a + s + c == (a + a') + Strip(s) + (c' + c);
    hide Strip;
    Strips(a + a', Strip(s), c' + c);
  }

  // ------------------------------------------------------------------ cutting

  /** The text up to the first c, and what follows it. */
  predicate Cut(s: string, c: char, head: string, tail: string) {
    c !in head && if c in s then s == head + [c] + tail else s == head && tail == ""
  }

  lemma {:induction false} Cuts(s: string, c: char)
    ensures Cut(s, c, Before(s, c), Locales.After(s, c))
  {
    if s != "" && s[0] != c {
      Cuts(s[1..], c);
      CutMore(s, c, Before(s[1..], c), Locales.After(s[1..], c));
    } else if s != "" {
      assert s == "" + [c] + s[1..];
    }
  }

  lemma CutMore(s: string, c: char, head: string, tail: string)
    requires s != "" && s[0] != c && Cut(s[1..], c, head, tail)
    ensures Cut(s, c, [s[0]] + head, tail)
  {
    assert s == [s[0]] + s[1..];
    assert c in s <==> c in s[1..];
    if c in s { assert s == ([s[0]] + head) + [c] + tail; }
  }

  lemma {:induction false} CutOnce(s: string, c: char, head: string, tail: string)
    requires Cut(s, c, head, tail)
    ensures head == Before(s, c) && tail == Locales.After(s, c)
    decreases |s|
  {
    if s != "" && s[0] != c {
      assert head != "" && head[0] == s[0];
      assert s[1..] == head[1..] + (if c in s then [c] + tail else "");
      assert head == [head[0]] + head[1..];
      assert c in s[1..] <==> c in s;
      if c in s { assert s[1..] == head[1..] + [c] + tail; }
      CutOnce(s[1..], c, head[1..], tail);
    } else if s != "" {
      assert c in s;
      assert head == "";
      assert s == [c] + tail;
    }
  }

  // ------------------------------------------------------------------ tags

  predicate LetterOf(c: char) { 'a' <= c <= 'z' || 'A' <= c <= 'Z' }

  /** Two or three letters, then subtags of one to eight letters or digits. */
  predicate Subtags(parts: seq<string>) {
    && parts != [] && 2 <= |parts[0]| <= 3 && (forall c :: c in parts[0] ==> LetterOf(c))
    && forall k :: 1 <= k < |parts| ==> 1 <= |parts[k]| <= 8 && forall c :: c in parts[k] ==> LetterOf(c) || '0' <= c <= '9'
  }

  lemma NoDash(parts: seq<string>, k: nat)
    requires Subtags(parts) && k < |parts|
    ensures '-' !in parts[k]
  {
  }

  /** A text is a tag exactly when it is such subtags with dashes between them. */
  lemma TagsAreSubtags(tag: string)
    ensures TagLike(tag) <==> exists parts :: Subtags(parts) && tag == Join(parts, "-")
  {
    if TagLike(tag) {
      SplitJoins(tag, '-');
      assert Subtags(Split(tag, '-'));
    }
    if parts :| Subtags(parts) && tag == Join(parts, "-") {
      forall k | 0 <= k < |parts| ensures '-' !in parts[k] { NoDash(parts, k); }
      JoinSplits(parts, '-');
    }
    hide Join;
  }

  /** Text names this locale: it is the locale's own code up to case, or an alias that is no locale's code. */
  predicate Names(reg: Registry, text: string, code: string) {
    (code in reg.supported && Lower(code) == text)
    || (text in reg.aliases && reg.aliases[text] == code && forall other :: other in reg.supported ==> Lower(other) != text)
  }

  lemma NamedNames(reg: Registry, text: string, code: string)
    requires Coherent(reg)
    ensures Named(reg, text) == Some(code) <==> Names(reg, text, code)
  {
    SpelledIsSupported(reg.supported, text);
    hide TagLike;
    hide Lower;
    if code in reg.supported && Lower(code) == text { SpelledItself(reg.supported, code); }
    hide Spelled;
  }

  ghost predicate NamesSomething(reg: Registry, text: string) { exists code :: Names(reg, text, code) }

  /** The first k subtags name this locale, and no longer stretch of them names any. */
  ghost predicate LongestNames(reg: Registry, parts: seq<string>, k: nat, code: string) {
    && 1 <= k <= |parts| && Names(reg, Prefix(parts, k), code)
    && forall j :: k < j <= |parts| ==> !NamesSomething(reg, Prefix(parts, j))
  }

  lemma NamedSomething(reg: Registry, text: string)
    requires Coherent(reg)
    ensures Named(reg, text).Some? <==> NamesSomething(reg, text)
  {
    hide Coherent;
    hide Names;
    hide Named;
    if Named(reg, text).Some? { NamedNames(reg, text, Named(reg, text).value); }
    if code :| Names(reg, text, code) { NamedNames(reg, text, code); }
  }

  /** A text normalises to a locale exactly when it is a tag, with underscores for dashes and space around it allowed, whose
      longest naming stretch of subtags, in any case, names that locale. */
  lemma NormalizesExactly(reg: Registry, raw: string, code: string)
    requires Coherent(reg)
    ensures var tag := Dashes(Strip(raw));
            Normalize(reg, Some(raw)) == Some(code) <==>
            TagLike(tag) && exists k :: LongestNames(reg, Split(Lower(tag), '-'), k, code)
  {
    var tag := Dashes(Strip(raw));
    var parts := Split(Lower(tag), '-');
    var n := NormalizesToLongestPrefix(reg, raw);
    hide Strip;
    hide TagLike;
    hide Split;
    hide Coherent;
    hide Normalize;
    hide Named;
    hide Prefix;
    hide NamesSomething;
    hide Names;
    forall j | 1 <= j <= |parts| ensures Named(reg, Prefix(parts, j)).Some? <==> NamesSomething(reg, Prefix(parts, j)) {
      NamedSomething(reg, Prefix(parts, j));
    }
    if TagLike(tag) && Normalize(reg, Some(raw)) == Some(code) {
      NamedNames(reg, Prefix(parts, n), code);
      assert LongestNames(reg, parts, n, code);
    }
    if k :| LongestNames(reg, parts, k, code) {
      NamedNames(reg, Prefix(parts, k), code);
      if TagLike(tag) { OneLongest(reg, parts, k, n); }
    }
  }

  lemma OneLongest(reg: Registry, parts: seq<string>, k: nat, n: nat)
    requires 1 <= k <= |parts| && Named(reg, Prefix(parts, k)).Some? && forall j :: k < j <= |parts| ==> Named(reg, Prefix(parts, j)).None?
    ensures !NothingNamed(reg, parts) && (Longest(reg, parts, n) ==> n == k)
  {
    hide Named;
    hide Prefix;
  }

  /** The locales that ship are told by their language alone, whatever region or variant follows it. */
  lemma ShippedByLanguage(raw: string, code: string)
    ensures var tag := Dashes(Strip(raw));
            Normalize(SHIPPED, Some(raw)) == Some(code) <==>
            TagLike(tag) && code in ["en", "de", "fr", "es", "it"] && Lower(Split(tag, '-')[0]) == code
  {
    var tag := Dashes(Strip(raw));
    var parts := Split(Lower(tag), '-');
    ShippedIsCoherent();
    NormalizesExactly(SHIPPED, raw, code);
    SplitLower(tag);
    SplitParts(Lower(tag), '-');
    assert parts[..1] == [parts[0]] && Prefix(parts, 1) == parts[0];
    hide Strip;
    hide TagLike;
    hide Split;
    hide Normalize;
    hide Coherent;
    hide Prefix;
    forall j | 2 <= j <= |parts| ensures !NamesSomething(SHIPPED, Prefix(parts, j)) { LongNamesNothing(parts, j); }
    forall c, j | 1 <= j <= |parts| && Names(SHIPPED, Prefix(parts, j), c) ensures j == 1 && c == parts[0] {
      assert NamesSomething(SHIPPED, Prefix(parts, j));
      ShippedIsLower(c);
    }
    if code in SHIPPED.supported && parts[0] == code {
      ShippedIsLower(code);
      assert LongestNames(SHIPPED, parts, 1, code);
    }
  }

  lemma ShippedIsLower(code: string)
    requires code in SHIPPED.supported
    ensures Lower(code) == code && '-' !in code
  {
    assert |code| == 2;
  }

  lemma LongNamesNothing(parts: seq<string>, j: nat)
    requires 2 <= j <= |parts|
    ensures !NamesSomething(SHIPPED, Prefix(parts, j))
  {
    var text := Prefix(parts, j);
    assert '-' in text by {
      var some := parts[..j];
      assert text == some[0] + "-" + Join(some[1..], "-");
    }
    forall code ensures !Names(SHIPPED, text, code) {
      if code in SHIPPED.supported { ShippedIsLower(code); }
    }
  }

  lemma {:induction false} SplitLower(s: string)
    ensures |Split(Lower(s), '-')| == |Split(s, '-')|
    ensures forall k :: 0 <= k < |Split(s, '-')| ==> Split(Lower(s), '-')[k] == Lower(Split(s, '-')[k])
    decreases |s|
  {
    if s == "" {
      assert Lower("") == "";
    } else {
      assert Lower(s)[0] == LowerChar(s[0]) && Lower(s)[1..] == Lower(s[1..]);
      SplitLower(s[1..]);
      var rest := Split(s[1..], '-');
      if s[0] == '-' {
        assert Lower("") == "";
      } else {
        assert LowerChar(s[0]) != '-';
        assert Lower([s[0]] + rest[0]) == [LowerChar(s[0])] + Lower(rest[0]);
      }
    }
  }

  // ------------------------------------------------------------------ the weight of a segment

  /** The parameters are a weight: `q` in either case, `=` and the text v, with any space around; or a `q` by itself. */
  predicate Reads(params: string, a: string, k: char, b: string, v: string, c: string) {
    && Spaces(a) && Spaces(b) && Spaces(c) && (k == 'q' || k == 'Q')
    && ((params == a + [k] + b + "=" + v + c && (v == "" || !Space(v[|v| - 1])))
        || (params == a + [k] + b + c && v == ""))
  }

  ghost predicate HasWeight(params: string, v: string) { exists a, k, b, c :: Reads(params, a, k, b, v, c) }

  function Read(number: string -> Option<real>, v: string): real {
    match number(v) case Some(q) => q case None => 1.0
  }

  lemma LowerQ(k: char)
    ensures Lower([k]) == "q" <==> k == 'q' || k == 'Q'
  {
    assert Lower([k])[0] == LowerChar(k);
    if k == 'q' || k == 'Q' { assert Lower([k]) == "q"; }
  }

  lemma KeyCut(k: char, b: string, v: string, c: char)
    requires (k == 'q' || k == 'Q') && Spaces(b)
    ensures Before([k] + b + "=" + v, '=') == [k] + b && Locales.After([k] + b + "=" + v, '=') == v
    ensures Before([k] + b, '=') == [k] + b && Locales.After([k] + b, '=') == ""
  {
    assert '=' !in [k] + b;
    var s := [k] + b + "=" + v;
    assert s[|b| + 1] == '=' && '=' in s;
    assert Cut(s, '=', [k] + b, v);
    CutOnce(s, '=', [k] + b, v);
    CutOnce([k] + b, '=', [k] + b, "");
  }

  lemma FullWeight(a: string, k: char, b: string, v: string, c: string, number: string -> Option<real>)
    requires Spaces(a) && Spaces(b) && Spaces(c) && (k == 'q' || k == 'Q') && (v == "" || !Space(v[|v| - 1]))
    ensures Quality(a + [k] + b + "=" + v + c, number) == Read(number, v)
  {
    var text := [k] + b + "=" + v;
    assert a + [k] + b + "=" + v + c == a + text + c;
    assert !Space(text[0]) && text[|text| - 1] == (if v == "" then '=' else v[|v| - 1]);
    Strips(a, text, c);
    Strips("", [k], b);
    assert "" + [k] + b == [k] + b;
    KeyCut(k, b, v, '=');
    LowerQ(k);
    hide Strip;
    hide Before;
    hide Locales.After;
    hide Lower;
  }

  lemma BareWeight(a: string, k: char, b: string, c: string, number: string -> Option<real>)
    requires Spaces(a) && Spaces(b) && Spaces(c) && (k == 'q' || k == 'Q')
    ensures Quality(a + [k] + b + c, number) == Read(number, "")
  {
    assert a + [k] + b + c == a + [k] + (b + c);
    Strips(a, [k], b + c);
    KeyCut(k, "", "", '=');
    Strips("", [k], "");
    assert [k] + "" == [k] && "" + [k] + "" == [k];
    LowerQ(k);
    hide Strip;
    hide Before;
    hide Locales.After;
    hide Lower;
  }

  /** A weight that is there is what `number` reads, and one when it cannot be read. */
  lemma WeightIsRead(params: string, v: string, number: string -> Option<real>)
    requires HasWeight(params, v)
    ensures Quality(params, number) == Read(number, v)
  {
    var a, k, b, c :| Reads(params, a, k, b, v, c);
    if params == a + [k] + b + "=" + v + c && (v == "" || !Space(v[|v| - 1])) {
      FullWeight(a, k, b, v, c, number);
    } else {
      BareWeight(a, k, b, c, number);
    }
    hide Quality;
  }

  /** A one-letter key between spaces. */
  lemma KeyBetween(head: string) returns (b1: string, k: char, b2: string)
    requires Lower(Strip(head)) == "q"
    ensures Spaces(b1) && Spaces(b2) && (k == 'q' || k == 'Q') && head == b1 + [k] + b2
  {
    b1, b2 := StripSplits(head);
    var key := Strip(head);
    assert |key| == 1;
    k := key[0];
    LowerQ(k);
    assert key == [k];
    hide Strip;
    hide Space;
  }

  lemma FindsWeight(params: string) returns (v: string)
    requires Lower(Strip(Before(Strip(params), '='))) == "q"
    ensures HasWeight(params, v)
  {
    var text := Strip(params);
    var head := Before(text, '=');
    var a, c := StripSplits(params);
    Cuts(text, '=');
    var b1, k, b2 := KeyBetween(head);
    v := Locales.After(text, '=');
    hide Strip;
    hide Lower;
    hide Before;
    hide Locales.After;
    hide Spaces;
    hide Trim;
    hide Reads;
    if '=' in text { Assembled(a, b1, k, b2, v, c); } else { AssembledBare(a, b1, k, b2, c); }
    assert Reads(params, a + b1, k, b2, v, c);
  }

  lemma Assembled(a: string, b1: string, k: char, b2: string, v: string, c: string)
    requires Spaces(a) && Spaces(b1) && Spaces(b2) && Spaces(c) && (k == 'q' || k == 'Q')
    requires Trim((b1 + [k] + b2) + ['='] + v)
    ensures Reads(a + ((b1 + [k] + b2) + ['='] + v) + c, a + b1, k, b2, v, c)
  {
    var text := (b1 + [k] + b2) + ['='] + v;
    assert v != "" ==> text[|text| - 1] == v[|v| - 1];
    assert a + text + c == (a + b1) + [k] + b2 + "=" + v + c;
    hide Space;
  }

  lemma AssembledBare(a: string, b1: string, k: char, b2: string, c: string)
    requires Spaces(a) && Spaces(b1) && Spaces(b2) && Spaces(c) && (k == 'q' || k == 'Q')
    ensures Reads(a + (b1 + [k] + b2) + c, a + b1, k, b2, "", c)
  {
    assert a + (b1 + [k] + b2) + c == (a + b1) + [k] + b2 + c;
    hide Space;
  }

  /** Without a weight a segment counts for one. */
  lemma NoWeightIsOne(params: string, number: string -> Option<real>)
    requires forall v :: !HasWeight(params, v)
    ensures Quality(params, number) == 1.0
  {
    hide HasWeight;
    if Lower(Strip(Before(Strip(params), '='))) == "q" {
      var v := FindsWeight(params);
    }
  }

  /** What a segment's parameters weigh. */
  ghost predicate Weighs(params: string, q: real, number: string -> Option<real>) {
    if exists v :: HasWeight(params, v) then exists v :: HasWeight(params, v) && q == Read(number, v) else q == 1.0
  }

  lemma QualityWeighs(params: string, q: real, number: string -> Option<real>)
    ensures Weighs(params, q, number) <==> q == Quality(params, number)
  {
    hide HasWeight;
    hide Quality;
    if v :| HasWeight(params, v) {
      WeightIsRead(params, v, number);
      if Weighs(params, q, number) {
        var u :| HasWeight(params, u) && q == Read(number, u);
        WeightIsRead(params, u, number);
      }
    } else {
      NoWeightIsOne(params, number);
    }
  }

  // ------------------------------------------------------------------ what a segment asks for

  /** The segment asks for locale `code` with weight q: its tag, up to the first semicolon, normalises to it, and its parameters
      weigh q. */
  ghost predicate Requests(reg: Registry, segment: string, q: real, code: string, number: string -> Option<real>) {
    exists tag, params :: RequestsBy(reg, segment, tag, params, q, code, number)
  }

  ghost predicate RequestsBy(reg: Registry, segment: string, tag: string, params: string, q: real, code: string,
                             number: string -> Option<real>) {
    Cut(segment, ';', tag, params) && Normalize(reg, Some(tag)) == Some(code) && Weighs(params, q, number)
  }

  /** Cutting a stripped segment cuts the segment, but for the space around it. */
  lemma CutStripped(segment: string) returns (a: string, c: string)
    ensures Spaces(a) && Spaces(c)
    ensures var piece := Strip(segment);
            var tag, params := Before(piece, ';'), Locales.After(piece, ';');
            if ';' in piece then Cut(segment, ';', a + tag, params + c)
            else tag == piece && params == "" && Cut(segment, ';', segment, "") && segment == a + piece + c
  {
    a, c := StripSplits(segment);
    var piece := Strip(segment);
    Cuts(piece, ';');
    hide Strip;
    hide Before;
    hide Locales.After;
    NoSemicolon(a);
    NoSemicolon(c);
    if ';' in piece { assert segment == (a + Before(piece, ';')) + [';'] + (Locales.After(piece, ';') + c); }
  }

  lemma NoSemicolon(a: string)
    requires Spaces(a)
    ensures ';' !in a
  {
  }

  lemma NormalizesStripped(reg: Registry, tag: string, other: string)
    requires Strip(tag) == Strip(other)
    ensures Normalize(reg, Some(tag)) == Normalize(reg, Some(other))
  {
  }

  lemma QualityOfStripped(params: string, c: string, number: string -> Option<real>)
    requires Spaces(c)
    ensures Quality(params + c, number) == Quality(params, number)
  {
    StripsSame("", params, c);
    assert "" + params + c == params + c;
    if params == "" && c != "" { BlankWeighsOne(number); }
    hide Strip;
    hide Before;
    hide Locales.After;
    hide Lower;
  }

  lemma BlankWeighsOne(number: string -> Option<real>)
    ensures Strip("") == "" && Lower(Strip(Before("", '='))) != "q"
  {
    assert |Lower("")| == 0;
  }

  /** The tag and the parameters of a segment, read with the space around them or without. */
  lemma SegmentReads(reg: Registry, segment: string, number: string -> Option<real>) returns (tag: string, params: string)
    ensures Cut(segment, ';', tag, params)
    ensures var piece := Strip(segment);
            && Normalize(reg, Some(tag)) == Normalize(reg, Some(Before(piece, ';')))
            && Quality(params, number) == Quality(Locales.After(piece, ';'), number)
  {
    var a, c := CutStripped(segment);
    var piece := Strip(segment);
    var head, rest := Before(piece, ';'), Locales.After(piece, ';');
    hide Strip;
    hide Quality;
    hide Normalize;
    hide Before;
    hide Locales.After;
    if ';' in piece {
      tag, params := a + head, rest + c;
      StripsSame(a, head, "");
      assert a + head + "" == a + head;
      NormalizesStripped(reg, tag, head);
      QualityOfStripped(rest, c, number);
    } else {
      tag, params := segment, "";
      StripsSame(a, piece, c);
      NormalizesStripped(reg, tag, piece);
    }
  }

  lemma BlankIsNoTag(reg: Registry)
    ensures Normalize(reg, Some("")).None?
  {
    EmptyIsNoTag();
  }

  /** A segment is scored exactly when it asks for a locale with positive weight, and with that weight. */
  lemma PreferenceRequests(reg: Registry, segment: string, index: nat, number: string -> Option<real>, q: real, code: string)
    ensures Preference(reg, segment, index, number) == Some(Scored(q, index, code)) <==>
            q > 0.0 && Requests(reg, segment, q, code, number)
  {
    var tag, params := SegmentReads(reg, segment, number);
    BlankIsNoTag(reg);
    BlankCut();
    QualityWeighs(params, q, number);
    if q > 0.0 && Requests(reg, segment, q, code, number) {
      var tag', params' :| RequestsBy(reg, segment, tag', params', q, code, number);
      CutOnce(segment, ';', tag, params);
      CutOnce(segment, ';', tag', params');
    }
    assert RequestsBy(reg, segment, tag, params, q, code, number) <==>
           Normalize(reg, Some(tag)) == Some(code) && Weighs(params, q, number);
    hide Strip;
    hide Quality;
    hide Normalize;
    hide Before;
    hide Locales.After;
    hide Cut;
    hide Weighs;
    hide RequestsBy;
  }

  lemma BlankCut()
    ensures Before("", ';') == ""
  {
  }

  // ------------------------------------------------------------------ the header

  /** Some segment asks for `a` with a weight that is positive and larger than any other segment gives `b`, or as large and
      earlier. */
  ghost predicate Beats(reg: Registry, segments: seq<string>, number: string -> Option<real>, a: string, b: string) {
    exists k, q :: BeatsWith(reg, segments, number, k, q, a, b)
  }

  ghost predicate BeatsWith(reg: Registry, segments: seq<string>, number: string -> Option<real>, k: nat, q: real, a: string, b: string) {
    && k < |segments| && q > 0.0 && Requests(reg, segments[k], q, a, number)
    && forall l: nat, p :: l < |segments| && p > 0.0 && Requests(reg, segments[l], p, b, number) ==> q > p || (q == p && k < l)
  }

  ghost predicate Asked(reg: Registry, segments: seq<string>, number: string -> Option<real>, code: string) {
    exists k, q :: AskedAt(reg, segments, number, k, q, code)
  }

  ghost predicate AskedAt(reg: Registry, segments: seq<string>, number: string -> Option<real>, k: nat, q: real, code: string) {
    k < |segments| && q > 0.0 && Requests(reg, segments[k], q, code, number)
  }

  lemma AsksRequests(reg: Registry, segments: seq<string>, number: string -> Option<real>, x: Scored)
    ensures Asks(reg, segments, number, x) <==> AskedAt(reg, segments, number, x.index, x.quality, x.code)
  {
    if x.index < |segments| { PreferenceRequests(reg, segments[x.index], x.index, number, x.quality, x.code); }
    hide Preference;
    hide Requests;
  }

  lemma WantedIsAsked(reg: Registry, segments: seq<string>, number: string -> Option<real>, code: string)
    ensures Wanted(reg, segments, number, code) <==> Asked(reg, segments, number, code)
  {
    if Wanted(reg, segments, number, code) {
      var x :| Asks(reg, segments, number, x) && x.code == code;
      AsksRequests(reg, segments, number, x);
      assert AskedAt(reg, segments, number, x.index, x.quality, code);
    }
    if Asked(reg, segments, number, code) {
      var k: nat, q :| AskedAt(reg, segments, number, k, q, code);
      AsksRequests(reg, segments, number, Scored(q, k, code));
    }
    hide Asks;
    hide AskedAt;
  }

  lemma OutranksBeats(reg: Registry, segments: seq<string>, number: string -> Option<real>, a: string, b: string)
    requires Outranks(reg, segments, number, a, b)
    ensures Beats(reg, segments, number, a, b)
  {
    var x :| Asks(reg, segments, number, x) && x.code == a && BeatsAll(reg, segments, number, x, b);
    AsksRequests(reg, segments, number, x);
    forall l: nat, p | l < |segments| && p > 0.0 && Requests(reg, segments[l], p, b, number)
      ensures x.quality > p || (x.quality == p && x.index < l)
    {
      AsksRequests(reg, segments, number, Scored(p, l, b));
    }
    hide Asks;
    hide Requests;
    assert BeatsWith(reg, segments, number, x.index, x.quality, a, b);
  }

  lemma BeatsIsOneWay(reg: Registry, segments: seq<string>, number: string -> Option<real>, a: string, b: string)
    requires Beats(reg, segments, number, a, b)
    ensures !Beats(reg, segments, number, b, a)
  {
    hide Requests;
    var k: nat, q :| BeatsWith(reg, segments, number, k, q, a, b);
    forall l: nat, p ensures !BeatsWith(reg, segments, number, l, p, b, a) {}
  }

  /** The header theorem, on its text alone: a locale is listed exactly when some segment asks for it with a positive weight, once;
      and before another exactly when its best weight is larger, or equal and earlier in the header. */
  lemma ListedByWeight(reg: Registry, header: string, number: string -> Option<real>)
    ensures var segments := Split(header, ',');
            var r := Accepted(reg, Some(header), number);
            && LocaleTheorems.Distinct(r)
            && (forall code :: code in r <==> Asked(reg, segments, number, code))
            && (forall i, j :: 0 <= i < |r| && 0 <= j < |r| && i != j ==> (i < j <==> Beats(reg, segments, number, r[i], r[j])))
  {
    var segments := Split(header, ',');
    var r := Accepted(reg, Some(header), number);
    AcceptedAreWanted(reg, header, number);
    hide Accepted;
    hide Wanted;
    hide Asked;
    hide Outranks;
    hide Beats;
    forall code ensures code in r <==> Asked(reg, segments, number, code) { WantedIsAsked(reg, segments, number, code); }
    forall i, j | 0 <= i < |r| && 0 <= j < |r| && i != j ensures i < j <==> Beats(reg, segments, number, r[i], r[j]) {
      if i < j {
        OutranksBeats(reg, segments, number, r[i], r[j]);
      } else {
        OutranksBeats(reg, segments, number, r[j], r[i]);
        BeatsIsOneWay(reg, segments, number, r[j], r[i]);
      }
    }
  }

  /** Negotiation answers with the stored preference when that names a locale; else with the locale that comes before every other
      the header asks for; else with what the fallback names; and else with the default. */
  lemma NegotiatesByWeight(reg: Registry, header: string, preferred: Option<string>, fallback: Option<string>,
                           number: string -> Option<real>)
    ensures var code := Negotiate(reg, Some(header), preferred, fallback, number);
            var segments := Split(header, ',');
            if Normalize(reg, preferred).Some? then Some(code) == Normalize(reg, preferred)
            else if exists other :: Asked(reg, segments, number, other) then
              Asked(reg, segments, number, code)
              && forall other :: Asked(reg, segments, number, other) && other != code ==> Beats(reg, segments, number, code, other)
            else if Normalize(reg, fallback).Some? then Some(code) == Normalize(reg, fallback)
            else code == "en"
  {
    var segments := Split(header, ',');
    var r := Accepted(reg, Some(header), number);
    ListedByWeight(reg, header, number);
    hide Accepted;
    hide Asked;
    hide Beats;
    hide Normalize;
    if r != [] {
      assert r[0] in r;
      forall other | Asked(reg, segments, number, other) && other != r[0] ensures Beats(reg, segments, number, r[0], other) {
        var j :| 0 <= j < |r| && r[j] == other;
      }
    } else {
      forall other ensures !Asked(reg, segments, number, other) { assert other !in r; }
    }
  }
}
