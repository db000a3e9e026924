/** The go.mod replace scanner of cmd/release-preflight/check.go: which replace
    directives it reports, in single-line and in block form. */
module Replaces {
  import opened Json
  import opened Strings

  // --- fields and arrows --------------------------------------------------

  /** The first whitespace-separated field, empty if there is none. */
  function FirstField(s: string): string { Word(TrimLeft(s)) }

  function Word(s: string): string {
    if s == "" || Space(s[0]) then "" else [s[0]] + Word(s[1..])
  }

  /** Where "=>" first occurs. */
  function Arrow(s: string): Option<nat> {
    if |s| < 2 then None
    else if s[0] == '=' && s[1] == '>' then Some(0)
    else
      var rest := Arrow(s[1..]);
      if rest.None? then None else Some(rest.value + 1)
  }

  lemma {:induction false} ArrowWithin(s: string)
    ensures Arrow(s).Some? ==> Arrow(s).value + 2 <= |s|
  {
    if |s| >= 2 && !(s[0] == '=' && s[1] == '>') {
      ArrowWithin(s[1..]);
    }
  }

  // --- the scanner -------------------------------------------------------

  datatype Violation = Violation(path: string, detail: string)

  predicate Local(path: string) {
    "./" <= path || "../" <= path || "/" <= path
  }

  /** What one replace expression reports. */
  function Judge(expr: string): Option<Violation> {
    ArrowWithin(expr);
    var at := Arrow(expr);
    if at.None? then None
    else
      var rhs, lhs := FirstField(expr[at.value + 2..]), FirstField(expr[..at.value]);
      if rhs == "" || Local(rhs) || lhs == "" then None else Some(Violation(lhs, expr))
  }

  const REPLACE: string := "replace "
  const OPEN: string := "replace ("

  datatype Scan = Scan(inBlock: bool, found: Option<Violation>)

  function ScanLine(inBlock: bool, line: string): Scan {
    var t := Trim(line);
    if t == "" || "//" <= t then Scan(inBlock, None)
    else if !inBlock && OPEN <= t then Scan(true, None)
    else if inBlock && t == ")" then Scan(false, None)
    else if REPLACE <= t then Scan(inBlock, Judge(t[|REPLACE|..]))
    else if inBlock then Scan(inBlock, Judge(t))
    else Scan(inBlock, None)
  }

  /** Scanning line by line, whatever a line does. */
  function ScanWith(step: (bool, string) -> Scan, inBlock: bool, lines: seq<string>): seq<Violation>
    decreases |lines|
  {
    if lines == [] then []
    else
      var s := step(inBlock, lines[0]);
      Found(s) + ScanWith(step, s.inBlock, lines[1..])
  }

  function Found(s: Scan): seq<Violation> {
    if s.found.Some? then [s.found.value] else []
  }

  function ScanAll(lines: seq<string>): seq<Violation> {
    ScanWith(ScanLine, false, lines)
  }

  lemma ScanNext(step: (bool, string) -> Scan, inBlock: bool, lines: seq<string>, i: nat, before: seq<Violation>)
    requires i < |lines|
    ensures
      var s := step(inBlock, lines[i]);
      before + ScanWith(step, inBlock, lines[i..]) == (before + Found(s)) + ScanWith(step, s.inBlock, lines[i + 1..])
  {
    assert lines[i..][0] == lines[i] && lines[i..][1..] == lines[i + 1..];
  }

  /** checkReplaces: the line loop with its `inBlock` flag. */
  method CheckReplaces(lines: seq<string>) returns (violations: seq<Violation>)
    ensures violations == ScanAll(lines)
  {
    violations := [];
    var inBlock := false;
    for i := 0 to |lines|
      invariant violations + ScanWith(ScanLine, inBlock, lines[i..]) == ScanAll(lines)
    {
      ScanNext(ScanLine, inBlock, lines, i, violations);
      var s := ScanLine(inBlock, lines[i]);
      inBlock := s.inBlock;
      violations := violations + Found(s);
    }
  }

  // --- directives as written ---------------------------------------------

  /** One replace directive; a version is optional on either side, and the right one may
      be followed by a comment or stand for one. */
  datatype Directive = Directive(path: string, version: Option<string>, to: string, remainder: Option<string>)

  predicate Token(s: string) { s != "" && NoSpace(s) }

  function Tail(version: Option<string>): string {
    if version.Some? then " " + version.value else ""
  }

  function Left(d: Directive): string { d.path + Tail(d.version) }

  function Right(d: Directive): string { d.to + Tail(d.remainder) }

  function Text(d: Directive): string { Left(d) + " => " + Right(d) }

  /** Names and versions are tokens, and what is replaced has no arrow in it; what
      follows the replacement is anything up to the end of the line. */
  predicate Written(d: Directive) {
    && Token(d.path) && Token(d.to)
    && (d.version.Some? ==> Token(d.version.value)) && (d.remainder.Some? ==> Tight(d.remainder.value))
    && Arrow(Left(d)).None?
  }

  /** And it does not start like a comment or a block opener. */
  predicate WellFormed(d: Directive) {
    Written(d) && !("//" <= d.path) && d.path[0] != '('
  }

  /** What should be reported: every directive that does not point at a local path. */
  function Expected(d: Directive): Option<Violation> {
    if Local(d.to) then None else Some(Violation(d.path, Text(d)))
  }

  lemma {:induction false} ArrowAfter(a: string, b: string)
    requires Arrow(a).None?
    ensures Arrow(a + " => " + b) == Some(|a| + 1)
  {
    var s := a + " => " + b;
    if a == "" {
      assert s == " => " + b && s[1..][0] == '=' && s[1..][1] == '>';
    } else {
      ArrowAfter(a[1..], b);
      assert s[1..] == a[1..] + " => " + b;
      if |a| >= 2 {
        assert s[0] == a[0] && s[1] == a[1];
      }
    }
  }

  lemma {:induction false} WordOfToken(w: string, rest: string)
    requires NoSpace(w) && (rest == "" || Space(rest[0]))
    ensures Word(w + rest) == w
  {
    if w == "" {
      assert w + rest == rest;
    } else {
      WordOfToken(w[1..], rest);
      assert (w + rest)[1..] == w[1..] + rest;
    }
  }

  lemma LeftWord(d: Directive, rest: string)
    requires Written(d) && rest != "" && Space(rest[0])
    ensures Word(Left(d) + rest) == d.path && FirstField(Left(d) + rest) == d.path
  {
    var s := Left(d) + rest;
    assert s == d.path + (Tail(d.version) + rest);
    WordOfToken(d.path, Tail(d.version) + rest);
    TrimLeftPad("", s);
    assert "" + s == s;
  }

  lemma RightWord(d: Directive)
    requires Written(d)
    ensures FirstField(" " + Right(d)) == d.to
  {
    WordOfToken(d.to, Tail(d.remainder));
    assert Right(d)[0] == d.to[0];
    TrimLeftPad(" ", Right(d));
  }

  lemma TextWords(d: Directive)
    requires Written(d)
    ensures
      var e, at := Text(d), |Left(d)| + 1;
      && Arrow(e) == Some(at) && at + 2 <= |e|
      && FirstField(e[..at]) == d.path && FirstField(e[at + 2..]) == d.to
      && Word(e) == d.path
  {
    var e, at := Text(d), |Left(d)| + 1;
    ArrowAfter(Left(d), Right(d));
    assert e[..at] == Left(d) + " ";
    assert e[at + 2..] == " " + Right(d);
    assert e == Left(d) + (" => " + Right(d));
    LeftWord(d, " ");
    LeftWord(d, " => " + Right(d));
    RightWord(d);
  }

  lemma JudgeText(d: Directive)
    requires Written(d)
    ensures Judge(Text(d)) == Expected(d)
  {
    TextWords(d);
  }

  lemma {:induction false} StartsWord(p: string, s: string)
    requires NoSpace(p) && p <= s
    ensures p <= Word(s)
  {
    if p != "" {
      assert s[0] == p[0] && p[1..] <= s[1..];
      StartsWord(p[1..], s[1..]);
    }
  }

  lemma ReplaceWord(s: string)
    requires REPLACE <= s
    ensures Word(s) == "replace"
  {
    assert s == "replace" + s[7..];
    WordOfToken("replace", s[7..]);
  }

  lemma TextIsTight(d: Directive)
    requires WellFormed(d)
    ensures Tight(Text(d)) && !("//" <= Text(d)) && Text(d)[0] != '(' && Text(d) != ")"
    ensures REPLACE <= Text(d) <==> d.path == "replace"
  {
    var e, right := Text(d), Right(d);
    TextWords(d);
    assert e[0] == d.path[0] && e[|e| - 1] == right[|right| - 1];
    if "//" <= e {
      StartsWord("//", e);
    }
    KeywordIsPath(d);
  }

  lemma KeywordIsPath(d: Directive)
    requires Written(d)
    ensures REPLACE <= Text(d) <==> d.path == "replace"
  {
    var e := Text(d);
    if REPLACE <= e {
      TextWords(d);
      ReplaceWord(e);
    }
    if d.path == "replace" {
      var rest := Tail(d.version) + " => " + Right(d);
      assert e == d.path + rest && rest[0] == ' ';
      assert e == REPLACE + rest[1..];
    }
  }

  /** The single-line form is scanned as its expression, in or out of a block. */
  lemma SingleLine(d: Directive, pre: string, post: string, inBlock: bool)
    requires WellFormed(d) && Spaces(pre) && Spaces(post)
    ensures ScanLine(inBlock, pre + (REPLACE + Text(d)) + post) == Scan(inBlock, Expected(d))
  {
    var e := Text(d);
    var t := REPLACE + e;
    TextIsTight(d);
    JudgeText(d);
    assert t[0] == 'r' && t[|t| - 1] == e[|e| - 1];
    TrimPads(pre, t, post);
    assert t[|REPLACE|..] == e && t[8] == e[0];
    assert !(OPEN <= t);
  }

  /** The block form is scanned the same way. */
  lemma BlockLine(d: Directive, pre: string, post: string)
    requires WellFormed(d) && Spaces(pre) && Spaces(post) && d.path != "replace"
    ensures ScanLine(true, pre + Text(d) + post) == Scan(true, Expected(d))
  {
    TextIsTight(d);
    JudgeText(d);
    TrimPads(pre, Text(d), post);
  }

  /** In a block the keyword is stripped off a module named like it: without a version
      nothing is left to report, with one the version is taken for the module. */
  lemma ReplaceReplaced(d: Directive, pre: string, post: string)
    requires WellFormed(d) && Spaces(pre) && Spaces(post) && d.path == "replace"
    ensures
      var s := ScanLine(true, pre + Text(d) + post);
      && s.inBlock
      && s.found == if d.version.None? then None else Expected(Directive(d.version.value, None, d.to, d.remainder))
  {
    TextIsTight(d);
    TrimPads(pre, Text(d), post);
    if d.version.None? {
      BareArrow(d);
    } else {
      VersionLeft(d);
      JudgeText(Directive(d.version.value, None, d.to, d.remainder));
    }
  }

  lemma BareArrow(d: Directive)
    requires Written(d) && d.path == "replace" && d.version.None?
    ensures |REPLACE| <= |Text(d)| && Judge(Text(d)[|REPLACE|..]) == None
  {
    var rest := Text(d)[|REPLACE|..];
    assert rest == "=> " + Right(d);
    assert rest[0] == '=' && rest[1] == '>' && rest[..0] == "";
  }

  lemma VersionLeft(d: Directive)
    requires Written(d) && d.path == "replace" && d.version.Some?
    ensures
      var d' := Directive(d.version.value, None, d.to, d.remainder);
      |REPLACE| <= |Text(d)| && Text(d)[|REPLACE|..] == Text(d') && Written(d')
  {
    var v := d.version.value;
    var d' := Directive(v, None, d.to, d.remainder);
    assert Left(d') == v && Right(d') == Right(d);
    assert Left(d) == REPLACE + v;
    assert Text(d) == REPLACE + Text(d');
    NoArrowInTail(REPLACE, v);
  }

  lemma {:induction false} NoArrowInTail(a: string, b: string)
    requires Arrow(a + b).None?
    ensures Arrow(b).None?
  {
    if a == "" {
      assert a + b == b;
    } else {
      assert (a + b)[1..] == a[1..] + b;
      if |a + b| >= 2 {
        NoArrowInTail(a[1..], b);
      }
    }
  }

  /** A block entry is scanned as it should be exactly when its module is not named
      `replace`, or it points at a local path and nothing is to be reported. */
  lemma EntryExactlyWhen(d: Directive, pre: string, post: string)
    requires WellFormed(d) && Spaces(pre) && Spaces(post)
    ensures ScanLine(true, pre + Text(d) + post).inBlock
    ensures ScanLine(true, pre + Text(d) + post).found == Expected(d) <==> d.path != "replace" || Local(d.to)
  {
    if d.path != "replace" {
      BlockLine(d, pre, post);
    } else {
      ReplaceReplaced(d, pre, post);
      if d.version.Some? {
        var d' := Directive(d.version.value, None, d.to, d.remainder);
        assert |Text(d')| < |Text(d)|;
      }
    }
  }

  lemma {:induction false} NoArrow(s: string)
    requires '=' !in s
    ensures Arrow(s).None?
  {
    if |s| >= 2 {
      NoArrow(s[1..]);
    }
  }

  /** A block entry that replaces the module `replace` by a module path is missed. */
  lemma NamedReplaceIsMissed(path: string, to: string)
    requires path == "replace" && Token(to) && !Local(to)
    ensures
      var d := Directive(path, None, to, None);
      && WellFormed(d) && Expected(d) == Some(Violation(path, Text(d)))
      && ScanLine(true, Text(d)).found == None
  {
    var d := Directive(path, None, to, None);
    NoArrow(path);
    assert Left(d) == path;
    ReplaceReplaced(d, "", "");
    assert "" + Text(d) + "" == Text(d);
  }

  /** For instance `replace => a.b/c`. */
  lemma ModuleNamedReplace() returns (d: Directive)
    ensures d == Directive("replace", None, "a.b/c", None) && WellFormed(d)
    ensures Expected(d) != None && ScanLine(true, Text(d)).found == None
  {
    d := Directive("replace", None, "a.b/c", None);
    assert d.to[0] == 'a';
    NamedReplaceIsMissed(d.path, d.to);
  }

  // --- layouts -----------------------------------------------------------

  /** A go.mod file as pieces: a line of its own, or a block. Blank and comment lines
      stand anywhere; other lines stand outside blocks. */
  datatype Inner = Note(line: string) | Entry(d: Directive, pre: string, post: string)

  datatype Piece =
    | Other(line: string)
    | Single(d: Directive, pre: string, post: string)
    | Block(pre: string, trailer: string, inner: seq<Inner>, closePre: string, closePost: string)  // rests of lines

  predicate Skipped(line: string) { Trim(line) == "" || "//" <= Trim(line) }

  predicate InnerOk(x: Inner) {
    match x
    case Note(line) => Skipped(line)
    case Entry(d, pre, post) => WellFormed(d) && Spaces(pre) && Spaces(post) && (d.path != "replace" || Local(d.to))
  }

  predicate PieceOk(p: Piece) {
    match p
    case Other(line) => Skipped(line) || !(REPLACE <= Trim(line))
    case Single(d, pre, post) => WellFormed(d) && Spaces(pre) && Spaces(post)
    case Block(pre, _, inner, closePre, _) =>
      Spaces(pre) && Spaces(closePre) && forall i :: 0 <= i < |inner| ==> InnerOk(inner[i])
  }

  function InnerLine(x: Inner): string {
    match x
    case Note(line) => line
    case Entry(d, pre, post) => pre + Text(d) + post
  }

  /** One line for each entry of a block, as `line` writes it. */
  function LinesWith(line: Inner -> string, xs: seq<Inner>): seq<string> {
    if xs == [] then [] else [line(xs[0])] + LinesWith(line, xs[1..])
  }

  function InnerLines(xs: seq<Inner>): seq<string> { LinesWith(InnerLine, xs) }

  function Lines(p: Piece): seq<string> {
    match p
    case Other(line) => [line]
    case Single(d, pre, post) => [pre + (REPLACE + Text(d)) + post]
    case Block(pre, trailer, inner, closePre, closePost) =>
      [pre + OPEN + trailer] + InnerLines(inner) + [closePre + ")" + closePost]
  }

  function Layout(ps: seq<Piece>): seq<string> {
    if ps == [] then [] else Lines(ps[0]) + Layout(ps[1..])
  }

  function Report(d: Directive): seq<Violation> {
    if Expected(d).Some? then [Expected(d).value] else []
  }

  function InnerReport(x: Inner): seq<Violation> {
    if x.Entry? then Report(x.d) else []
  }

  function ReportsWith(report: Inner -> seq<Violation>, xs: seq<Inner>): seq<Violation> {
    if xs == [] then [] else report(xs[0]) + ReportsWith(report, xs[1..])
  }

  function InnerReports(xs: seq<Inner>): seq<Violation> { ReportsWith(InnerReport, xs) }

  function PieceReports(p: Piece): seq<Violation> {
    match p
    case Other(_) => []
    case Single(d, _, _) => Report(d)
    case Block(_, _, inner, _, _) => InnerReports(inner)
  }

  /** The directives of the file that do not point at local paths, in order. */
  function Reports(ps: seq<Piece>): seq<Violation> {
    if ps == [] then [] else PieceReports(ps[0]) + Reports(ps[1..])
  }

  lemma ScanCons(step: (bool, string) -> Scan, inBlock: bool, line: string, rest: seq<string>)
    ensures ScanWith(step, inBlock, [line] + rest) ==
            Found(step(inBlock, line)) + ScanWith(step, step(inBlock, line).inBlock, rest)
  {
    assert ([line] + rest)[1..] == rest;
  }

  lemma InnerScan(x: Inner)
    requires InnerOk(x)
    ensures ScanLine(true, InnerLine(x)).inBlock
    ensures Found(ScanLine(true, InnerLine(x))) == InnerReport(x)
  {
    if x.Entry? {
      EntryExactlyWhen(x.d, x.pre, x.post);
    }
  }

  /** In a block, every line yields its report and the block goes on. */
  lemma {:induction false} InnerScans(step: (bool, string) -> Scan, line: Inner -> string,
                                      report: Inner -> seq<Violation>, xs: seq<Inner>, rest: seq<string>)
    requires forall i :: 0 <= i < |xs| ==>
               step(true, line(xs[i])).inBlock && Found(step(true, line(xs[i]))) == report(xs[i])
    ensures ScanWith(step, true, LinesWith(line, xs) + rest) == ReportsWith(report, xs) + ScanWith(step, true, rest)
    decreases |xs|
  {
    if xs == [] {
      assert LinesWith(line, xs) + rest == rest;
    } else {
      InnerScans(step, line, report, xs[1..], rest);
      ScanCons(step, true, line(xs[0]), LinesWith(line, xs[1..]) + rest);
      assert LinesWith(line, xs) + rest == [line(xs[0])] + (LinesWith(line, xs[1..]) + rest);
    }
  }

  /** A block: its opener, its entries, its closer. */
  lemma BlockScans(step: (bool, string) -> Scan, line: Inner -> string, report: Inner -> seq<Violation>,
                   inBlock: bool, open: string, xs: seq<Inner>, close: string, rest: seq<string>)
    requires step(inBlock, open).inBlock
    requires forall i :: 0 <= i < |xs| ==>
               step(true, line(xs[i])).inBlock && Found(step(true, line(xs[i]))) == report(xs[i])
    ensures ScanWith(step, inBlock, [open] + LinesWith(line, xs) + [close] + rest) ==
            Found(step(inBlock, open)) +
            (ReportsWith(report, xs) + (Found(step(true, close)) + ScanWith(step, step(true, close).inBlock, rest)))
  {
    var lines := LinesWith(line, xs);
    ScanCons(step, inBlock, open, lines + ([close] + rest));
    InnerScans(step, line, report, xs, [close] + rest);
    ScanCons(step, true, close, rest);
    Regroup([open], lines, [close], rest);
  }

  lemma Regroup<T>(a: seq<T>, b: seq<T>, c: seq<T>, d: seq<T>)
    ensures a + b + c + d == a + (b + (c + d))
  {
  }

  function Opener(p: Piece): string
    requires p.Block?
  {
    p.pre + OPEN + p.trailer
  }

  function CloserOf(p: Piece): string
    requires p.Block?
  {
    p.closePre + ")" + p.closePost
  }

  // --- lines that are taken for entries ----------------------------------

  /** Only a bare parenthesis closes a block. After any other closer the scanner goes on
      as if inside, and takes what stands outside for entries. */
  predicate StuckAfter(stuck: bool, p: Piece) {
    match p
    case Other(line) => stuck && Trim(line) != ")"
    case Single(_, _, _) => stuck
    case Block(_, _, _, _, closePost) => !Spaces(closePost)
  }

  /** What is reported of the piece although it is no directive, before its entries ... */
  function StrayBefore(stuck: bool, p: Piece): Option<Violation>
    requires PieceOk(p)
  {
    match p
    case Other(line) => if !stuck || Skipped(line) || Trim(line) == ")" then None else Judge(Trim(line))
    case Single(_, _, _) => None
    case Block(pre, trailer, _, _, _) =>
      OpenTrims(pre, trailer);
      if stuck then Judge(Trim(Opener(p))[|REPLACE|..]) else None
  }

  /** ... and after them. */
  function StrayAfter(p: Piece): Option<Violation> {
    if p.Block? && !Spaces(p.closePost) then Judge(Trim(CloserOf(p))) else None
  }

  predicate NoStrays(stuck: bool, ps: seq<Piece>)
    requires forall i :: 0 <= i < |ps| ==> PieceOk(ps[i])
    decreases |ps|
  {
    ps != [] ==>
      && StrayBefore(stuck, ps[0]).None? && StrayAfter(ps[0]).None?
      && NoStrays(StuckAfter(stuck, ps[0]), ps[1..])
  }

  function Listed(v: Option<Violation>): seq<Violation> {
    if v.Some? then [v.value] else []
  }

  lemma OpenScans(p: Piece, stuck: bool)
    requires p.Block? && PieceOk(p)
    ensures ScanLine(stuck, Opener(p)) == Scan(true, StrayBefore(stuck, p))
  {
    OpenTrims(p.pre, p.trailer);
    var t := Trim(Opener(p));
    assert t[0] == OPEN[0] && REPLACE <= OPEN;
  }

  lemma CloseScans(p: Piece)
    requires p.Block? && PieceOk(p)
    ensures ScanLine(true, CloserOf(p)) == Scan(!Spaces(p.closePost), StrayAfter(p))
  {
    var t := Trim(CloserOf(p));
    assert CloserOf(p) == p.closePre + (")" + p.closePost);
    TrimLeftPad(p.closePre, ")" + p.closePost);
    TrimRightKeeps(")", p.closePost);
    assert t[0] == ')';
    if Spaces(p.closePost) {
      TrimRightPad(")", p.closePost);
    } else {
      TrimRightLeaves(")", p.closePost);
    }
  }

  lemma {:induction false} TrimRightLeaves(s: string, t: string)
    requires !Spaces(t)
    ensures |TrimRight(s + t)| > |s|
    decreases |t|
  {
    if Space(t[|t| - 1]) {
      assert (s + t)[..|s + t| - 1] == s + t[..|t| - 1];
      TrimRightLeaves(s, t[..|t| - 1]);
    }
  }

  lemma OpenTrims(pre: string, trailer: string)
    requires Spaces(pre)
    ensures OPEN <= Trim(pre + OPEN + trailer)
  {
    assert pre + OPEN + trailer == pre + (OPEN + trailer);
    TrimLeftPad(pre, OPEN + trailer);
    TrimRightKeeps(OPEN, trailer);
  }

  lemma {:induction false} TrimRightKeeps(s: string, t: string)
    requires s != "" && !Space(s[|s| - 1])
    ensures s <= TrimRight(s + t)
    decreases |t|
  {
    if t == "" {
      assert s + t == s;
    } else if Space(t[|t| - 1]) {
      assert (s + t)[..|s + t| - 1] == s + t[..|t| - 1];
      TrimRightKeeps(s, t[..|t| - 1]);
    }
  }

  lemma PieceScans(p: Piece, stuck: bool, rest: seq<string>)
    requires PieceOk(p)
    ensures ScanWith(ScanLine, stuck, Lines(p) + rest) ==
            Listed(StrayBefore(stuck, p)) +
            (PieceReports(p) + (Listed(StrayAfter(p)) + ScanWith(ScanLine, StuckAfter(stuck, p), rest)))
  {
    if p.Block? {
      BlockPieceScans(p, stuck, rest);
    } else {
      LinePieceScans(p, stuck, rest);
    }
  }

  lemma LinePieceScans(p: Piece, stuck: bool, rest: seq<string>)
    requires PieceOk(p) && !p.Block?
    ensures ScanWith(ScanLine, stuck, Lines(p) + rest) ==
            Listed(StrayBefore(stuck, p)) +
            (PieceReports(p) + (Listed(StrayAfter(p)) + ScanWith(ScanLine, StuckAfter(stuck, p), rest)))
  {
    var more := ScanWith(ScanLine, StuckAfter(stuck, p), rest);
    assert Listed(StrayAfter(p)) + more == more;
    if p.Other? {
      OtherScans(p.line, stuck);
      ScanCons(ScanLine, stuck, p.line, rest);
      assert PieceReports(p) + more == more;
    } else {
      SingleLine(p.d, p.pre, p.post, stuck);
      ScanCons(ScanLine, stuck, p.pre + (REPLACE + Text(p.d)) + p.post, rest);
      assert Listed(StrayBefore(stuck, p)) + (PieceReports(p) + more) == PieceReports(p) + more;
    }
  }

  lemma BlockPieceScans(p: Piece, stuck: bool, rest: seq<string>)
    requires PieceOk(p) && p.Block?
    ensures ScanWith(ScanLine, stuck, Lines(p) + rest) ==
            Listed(StrayBefore(stuck, p)) +
            (PieceReports(p) + (Listed(StrayAfter(p)) + ScanWith(ScanLine, StuckAfter(stuck, p), rest)))
  {
    OpenScans(p, stuck);
    CloseScans(p);
    forall i | 0 <= i < |p.inner|
      ensures ScanLine(true, InnerLine(p.inner[i])).inBlock
      ensures Found(ScanLine(true, InnerLine(p.inner[i]))) == InnerReport(p.inner[i])
    {
      InnerScan(p.inner[i]);
    }
    BlockScans(ScanLine, InnerLine, InnerReport, stuck, Opener(p), p.inner, CloserOf(p), rest);
  }

  lemma OtherScans(line: string, stuck: bool)
    requires PieceOk(Other(line))
    ensures ScanLine(stuck, line) == Scan(StuckAfter(stuck, Other(line)), StrayBefore(stuck, Other(line)))
  {
    if OPEN <= Trim(line) {
      assert REPLACE <= OPEN;
    }
  }

  /** Whatever mix of single-line and block form, comments and blank lines: the scan of a
      laid-out file reports the directives that do not point at a local path, in order
      and with the same text in either form, exactly when no line is a stray; ... */
  lemma {:induction false} LayoutExactlyWhen(ps: seq<Piece>, stuck: bool)
    requires forall i :: 0 <= i < |ps| ==> PieceOk(ps[i])
    ensures
      var found := ScanWith(ScanLine, stuck, Layout(ps));
      |found| >= |Reports(ps)| && (found == Reports(ps) <==> NoStrays(stuck, ps))
    decreases |ps|
  {
    if ps != [] {
      var p, rest := ps[0], ScanWith(ScanLine, StuckAfter(stuck, ps[0]), Layout(ps[1..]));
      PieceScans(p, stuck, Layout(ps[1..]));
      LayoutExactlyWhen(ps[1..], StuckAfter(stuck, p));
      StraysShow(Listed(StrayBefore(stuck, p)), PieceReports(p), Listed(StrayAfter(p)), rest, Reports(ps[1..]));
    }
  }

  lemma StraysShow<T>(a: seq<T>, mid: seq<T>, b: seq<T>, found: seq<T>, due: seq<T>)
    requires |found| >= |due|
    ensures |a + (mid + (b + found))| >= |mid + due|
    ensures a + (mid + (b + found)) == mid + due <==> a == [] && b == [] && found == due
  {
    var all := a + (mid + (b + found));
    if all == mid + due {
      assert |a| + |b| + |found| == |due|;
      assert all[|mid|..] == found && (mid + due)[|mid|..] == due;
    }
  }

  /** ... as is so whenever every block is closed by a bare parenthesis. */
  lemma {:induction false} LayoutIsReported(ps: seq<Piece>)
    requires forall i :: 0 <= i < |ps| ==> PieceOk(ps[i]) && (ps[i].Block? ==> Spaces(ps[i].closePost))
    ensures ScanAll(Layout(ps)) == Reports(ps)
  {
    BareClosersLeaveNoStrays(ps);
    LayoutExactlyWhen(ps, false);
  }

  lemma {:induction false} BareClosersLeaveNoStrays(ps: seq<Piece>)
    requires forall i :: 0 <= i < |ps| ==> PieceOk(ps[i]) && (ps[i].Block? ==> Spaces(ps[i].closePost))
    ensures NoStrays(false, ps)
    decreases |ps|
  {
    if ps != [] {
      BareClosersLeaveNoStrays(ps[1..]);
    }
  }

  /** A comment on the closer, and a line outside that says `a => b`: it is reported. */
  lemma StrayIsReported() returns (ps: seq<Piece>)
    ensures (forall i :: 0 <= i < |ps| ==> PieceOk(ps[i])) && Reports(ps) == []
    ensures |ps| == 2 && ps[0] == Block("", "", [], "", "// end") && ps[1] == Other("a => b")
    ensures ScanAll(Layout(ps)) == [Violation("a", "a => b")]
  {
    StrayLine();
    CommentedCloser();
    ps := StuckReports(Block("", "", [], "", "// end"), "a => b", Violation("a", "a => b"));
  }

  lemma StuckReports(p: Piece, line: string, v: Violation) returns (ps: seq<Piece>)
    requires p.Block? && PieceOk(p) && p.inner == [] && !Spaces(p.closePost) && StrayAfter(p).None?
    requires PieceOk(Other(line)) && ScanLine(true, line).found == Some(v)
    ensures ps == [p, Other(line)] && (forall i :: 0 <= i < |ps| ==> PieceOk(ps[i])) && Reports(ps) == []
    ensures ScanAll(Layout(ps)) == [v]
  {
    ps := [p, Other(line)];
    TwoPieces(p, line);
    PieceScans(p, false, [line] + []);
    ScanCons(ScanLine, true, line, []);
    assert PieceReports(p) == [];
  }

  lemma TwoPieces(p: Piece, line: string)
    ensures Layout([p, Other(line)]) == Lines(p) + ([line] + [])
    ensures Reports([p, Other(line)]) == PieceReports(p) + []
  {
    var ps := [p, Other(line)];
    assert ps[1..] == [Other(line)] && ps[1..][1..] == [];
    assert Layout(ps[1..]) == [line] + [] && Reports(ps[1..]) == [] + [];
  }

  lemma StrayLine()
    ensures ScanLine(true, "a => b") == Scan(true, Some(Violation("a", "a => b"))) && PieceOk(Other("a => b"))
  {
    TrimPads("", "a => b", "");
    assert "" + "a => b" + "" == "a => b";
    var d := Directive("a", None, "b", None);
    NoArrow("a");
    assert Left(d) == "a" && Right(d) == "b" && Text(d) == "a => b";
    BlockLine(d, "", "");
    assert "" + Text(d) + "" == "a => b";
  }

  /** That closer, `)// end`, reports nothing itself. */
  lemma CommentedCloser()
    ensures !Spaces("// end") && StrayAfter(Block("", "", [], "", "// end")) == None
  {
    var p := Block("", "", [], "", "// end");
    assert "// end"[0] == '/';
    assert CloserOf(p) == ")// end";
    TrimPads("", ")// end", "");
    assert "" + ")// end" + "" == ")// end";
    NoArrow(")// end");
  }

  // --- other spellings ---------------------------------------------------

  /** With other white space after the keyword, a directive that should be reported
      is reported as written exactly when the gap is one space: a longer gap that
      starts with a space leaks into the text, and any other gap hides it. */
  lemma GapExactlyWhen(d: Directive, gap: string)
    requires WellFormed(d) && !Local(d.to) && gap != "" && Spaces(gap)
    ensures
      var s := ScanLine(false, "replace" + gap + Text(d));
      && (s.found == Expected(d) <==> gap == " ")
      && (s.found.Some? <==> gap[0] == ' ')
      && (gap[0] == ' ' ==> s.found == Some(Violation(d.path, gap[1..] + Text(d))))
  {
    GapTrims(d, gap);
    if gap[0] == ' ' {
      GapJudged(d, gap[1..]);
      assert |gap[1..] + Text(d)| == |Text(d)| <==> gap == " ";
    }
  }

  lemma GapTrims(d: Directive, gap: string)
    requires WellFormed(d) && gap != "" && Spaces(gap)
    ensures ScanLine(false, "replace" + gap + Text(d)).found ==
            if gap[0] == ' ' then Judge(gap[1..] + Text(d)) else None
  {
    var e := Text(d);
    TextIsTight(d);
    TrimPads("", "replace" + gap + e, "");
    assert "" + ("replace" + gap + e) + "" == "replace" + gap + e;
    KeywordGap(gap, e);
  }

  lemma KeywordGap(gap: string, e: string)
    requires gap != "" && Spaces(gap) && Tight(e) && e[0] != '('
    ensures
      var t := "replace" + gap + e;
      && Tight(t) && !("//" <= t) && !(OPEN <= t) && (REPLACE <= t <==> gap[0] == ' ')
      && (gap[0] == ' ' ==> t[|REPLACE|..] == gap[1..] + e)
  {
    var t := "replace" + gap + e;
    assert t[0] == 'r' && t[|t| - 1] == e[|e| - 1];
    assert t[..7] == "replace" && t[7] == gap[0];
    var rest := gap[1..] + e;
    assert t[8..] == rest && t[8] == rest[0] != '(';
  }

  lemma {:induction false} ArrowShifts(pad: string, s: string)
    requires Spaces(pad) && Arrow(s).Some?
    ensures Arrow(pad + s) == Some(|pad| + Arrow(s).value)
  {
    ArrowWithin(s);
    if pad == "" {
      assert pad + s == s;
    } else {
      ArrowShifts(pad[1..], s);
      assert (pad + s)[1..] == pad[1..] + s;
    }
  }

  lemma GapJudged(d: Directive, pad: string)
    requires WellFormed(d) && !Local(d.to) && Spaces(pad)
    ensures Judge(pad + Text(d)) == Some(Violation(d.path, pad + Text(d)))
  {
    var e, at := Text(d), |Left(d)| + 1;
    TextWords(d);
    ArrowShifts(pad, e);
    assert (pad + e)[..|pad| + at] == pad + e[..at];
    assert (pad + e)[|pad| + at + 2..] == e[at + 2..];
    assert e[..at][0] == d.path[0];
    TrimLeftPad(pad, e[..at]);
  }

  lemma {:induction false} InnerMissed(step: (bool, string) -> Scan, line: Inner -> string, xs: seq<Inner>,
                                       rest: seq<string>)
    requires forall i :: 0 <= i < |xs| ==> step(false, line(xs[i])) == Scan(false, None)
    ensures ScanWith(step, false, LinesWith(line, xs) + rest) == ScanWith(step, false, rest)
    decreases |xs|
  {
    if xs == [] {
      assert LinesWith(line, xs) + rest == rest;
    } else {
      InnerMissed(step, line, xs[1..], rest);
      ScanCons(step, false, line(xs[0]), LinesWith(line, xs[1..]) + rest);
      assert LinesWith(line, xs) + rest == [line(xs[0])] + (LinesWith(line, xs[1..]) + rest);
    }
  }

  /** What opens a block: the keyword, one space, the parenthesis. */
  lemma OpenerExactlyWhen(gap: string)
    requires Spaces(gap)
    ensures ScanLine(false, "replace" + gap + "(") == Scan(gap == " ", None)
  {
    var t := "replace" + gap + "(";
    assert t[0] == 'r' && t[|t| - 1] == '(';
    TrimPads("", t, "");
    assert "" + t + "" == t;
    assert t[..7] == "replace" && t[7..] == gap + "(";
    if gap == "" {
      assert t[7] == '(';
    } else {
      assert t[7] == gap[0] && t[8..] == gap[1..] + "(";
      NoArrow(gap[1..] + "(");
      if gap != " " {
        assert |gap| == 1 || t[8] == gap[1];
      }
    }
  }

  predicate PlainEntry(x: Inner) {
    InnerOk(x) && (x.Entry? ==> x.d.path != "replace")
  }

  /** A block opened with any white space before its parenthesis, or none, reports its
      entries exactly when that is one space, and otherwise reports nothing. */
  lemma BlockGapExactlyWhen(gap: string, xs: seq<Inner>)
    requires Spaces(gap) && forall i :: 0 <= i < |xs| ==> PlainEntry(xs[i])
    ensures ScanAll(["replace" + gap + "("] + (InnerLines(xs) + [")"])) == if gap == " " then InnerReports(xs) else []
  {
    OpenerExactlyWhen(gap);
    ScanCons(ScanLine, false, "replace" + gap + "(", InnerLines(xs) + [")"]);
    Closer();
    ScanCons(ScanLine, gap == " ", ")", []);
    assert [")"] + [] == [")"];
    if gap == " " {
      forall i | 0 <= i < |xs|
        ensures ScanLine(true, InnerLine(xs[i])).inBlock
        ensures Found(ScanLine(true, InnerLine(xs[i]))) == InnerReport(xs[i])
      {
        InnerScan(xs[i]);
      }
      InnerScans(ScanLine, InnerLine, InnerReport, xs, [")"]);
    } else {
      forall i | 0 <= i < |xs| ensures ScanLine(false, InnerLine(xs[i])) == Scan(false, None) {
        OutsideLine(xs[i]);
      }
      InnerMissed(ScanLine, InnerLine, xs, [")"]);
    }
  }

  lemma Closer()
    ensures ScanLine(true, ")") == Scan(false, None) == ScanLine(false, ")")
  {
    TrimPads("", ")", "");
    assert "" + ")" + "" == ")";
  }

  lemma OutsideLine(x: Inner)
    requires PlainEntry(x)
    ensures ScanLine(false, InnerLine(x)) == Scan(false, None)
  {
    if x.Entry? {
      TextIsTight(x.d);
      TrimPads(x.pre, Text(x.d), x.post);
      assert OPEN[..8] == REPLACE;
    }
  }
}
