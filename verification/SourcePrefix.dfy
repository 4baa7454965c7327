/**
 Where the identity prefix goes in a module's source (lib/single-thread-facade.js:224-252):
 after a byte order mark, a hashbang line, and the complete directives and trivia that follow.
 */
module SourcePrefix {
  import opened SourceScanner
  import opened SourceModes
  import opened SourceTokens

  // ----- the prologue -----

  predicate WordChar(c: char) { 'a' <= c <= 'z' || 'A' <= c <= 'Z' || '0' <= c <= '9' || c == '_' }

  /** The word `w` stands at `i`. */
  predicate WordIs(src: string, i: nat, w: string) {
    i + |w| <= |src| && src[i..i + |w|] == w && (i + |w| == |src| || !WordChar(src[i + |w|]))
  }

  /** What stands at `a`, after a string literal, cannot continue it as an expression. */
  predicate CannotContinue(src: string, a: nat, sawNewline: bool) {
    a >= |src| || src[a] == '}' ||
    (sawNewline && src[a] !in CONTINUES && !WordIs(src, a, "instanceof") && !WordIs(src, a, "in"))
  }

  /** One directive by its positions: trivia from `start`, its literal from `open` to `close`, and its end. */
  datatype Directive = Directive(start: nat, open: nat, close: nat, end: nat)

  ghost predicate LiteralAt(src: string, p: nat, q: nat) {
    p < q <= |src| && (src[p] == '\'' || src[p] == '"') && EndsAt(src, p, q)
  }

  lemma LiteralIsString(src: string, p: nat, q: nat)
    requires LiteralAt(src, p, q)
    ensures IsString(src[p..q])
  {
    var s, inner := src[p..q], src[p + 1..q - 1];
    assert Inside(inner, src[p]);
    assert s == [src[p]] + inner + [src[q - 1]];
    assert s[1..|s| - 1] == inner;
  }

  /** The literal that ends at `q` is closed by a semicolon, the last character before `end`. */
  ghost predicate BySemicolon(src: string, q: nat, end: nat) {
    q < end <= |src| && src[end - 1] == ';' && SkipEnd(src, q) == end - 1
  }

  /** The literal that ends at `q` ends its statement without one. */
  ghost predicate ByInsertion(src: string, q: nat) {
    q <= |src| && CannotContinue(src, SkipEnd(src, q), SkipBreaks(src, q))
  }

  ghost predicate IsDirective(src: string, d: Directive) {
    && d.start <= |src| && SkipEnd(src, d.start) == d.open && LiteralAt(src, d.open, d.close)
    && (BySemicolon(src, d.close, d.end) || (d.end == d.close && ByInsertion(src, d.close)))
  }

  /** Directives one after another, from `i` up to `j`. */
  ghost predicate Directives(src: string, ds: seq<Directive>, i: nat, j: nat) {
    && (forall k :: 0 <= k < |ds| ==> IsDirective(src, ds[k]))
    && (forall k :: 0 < k < |ds| ==> ds[k].start == ds[k - 1].end)
    && (if ds == [] then j == i else ds[0].start == i && j == ds[|ds| - 1].end)
  }

  /** No directive starts at `p`. */
  ghost predicate NoDirective(src: string, p: nat) {
    forall q, end | LiteralAt(src, p, q) :: !BySemicolon(src, q, end) && !ByInsertion(src, q)
  }

  /** The end of a byte order mark. */
  function MarkEnd(src: string): nat { if At(src, 0, BOM) then 1 else 0 }

  predicate Hashbang(src: string) { At(src, MarkEnd(src), '#') && At(src, MarkEnd(src) + 1, '!') }

  /** The end of the byte order mark and hashbang line; a hashbang without a line end has no code after it. */
  function HeaderEnd(src: string): (r: int)
    ensures -1 <= r <= |src|
  {
    if Hashbang(src) then LineFeedAfter(src, MarkEnd(src)) else MarkEnd(src)
  }

  function LineFeedAfter(src: string, i: nat): (r: int)
    ensures r == -1 || i < r <= |src|
    decreases |src| - i
  {
    if i >= |src| then -1 else if src[i] == '\n' then i + 1 else LineFeedAfter(src, i + 1)
  }

  /**
   Where the prefix goes: after the directives and the trivia before anything else, with nothing
   in front of it; or right after a last directive that has no semicolon and ends the source
   or its block, behind a semicolon of its own.
   */
  ghost predicate Placed(src: string, from: nat, at: nat, lead: string, ds: seq<Directive>, mid: nat) {
    && from <= mid <= at <= |src| && Directives(src, ds, from, mid)
    && (lead == "" || lead == ";")
    && (lead == "" ==> SkipEnd(src, mid) == at && NoDirective(src, at))
    && (lead == ";" ==> at == mid && ds != [] && ds[|ds| - 1].close == at && NothingFollows(src, at))
  }

  /** Only trivia comes before the end of the source, or of the block. */
  predicate NothingFollows(src: string, i: nat)
    requires i <= |src|
  {
    SkipEnd(src, i) == |src| || src[SkipEnd(src, i)] == '}'
  }

  // ----- the inserted text -----

  function HexDigit(n: nat): char
    requires n < 16
  {
    "0123456789abcdef"[n]
  }

  /** `JSON.stringify` of one character. */
  function Escape(c: char): string {
    if c == '"' then "\\\""
    else if c == '\\' then "\\\\"
    else if c == '\n' then "\\n"
    else if c == '\r' then "\\r"
    else if c == '\t' then "\\t"
    else if c as int == 8 then "\\b"
    else if c as int == 12 then "\\f"
    else if c as int < 32 then "\\u00" + [HexDigit(c as int / 16), HexDigit(c as int % 16)]
    else [c]
  }

  function EscapeAll(s: string): string {
    if s == "" then "" else EscapeAll(s[..|s| - 1]) + Escape(s[|s| - 1])
  }

  function Json(s: string): string { "\"" + EscapeAll(s) + "\"" }

  function Insert(file: string, dir: string): string {
    "var __filename = " + Json(file) + ", __dirname = " + Json(dir) + ";"
  }

  lemma {:induction false} EscapedHas(s: string, c: char)
    requires c == '\n' || c == '\r' || c == LS || c == PS
    ensures c in EscapeAll(s) <==> (c == LS || c == PS) && c in s
    decreases |s|
  {
    if s != "" {
      var front, last := s[..|s| - 1], s[|s| - 1];
      EscapedHas(front, c);
      assert s == front + [last];
      EscapeHas(last, c);
    }
  }

  lemma EscapeHas(last: char, c: char)
    requires c == '\n' || c == '\r' || c == LS || c == PS
    ensures c in Escape(last) <==> (c == LS || c == PS) && c == last
  {
  }

  /** The inserted text has no line feed or carriage return; it has another line end exactly if the path does. */
  lemma InsertBreaks(file: string, dir: string, c: char)
    requires c == '\n' || c == '\r' || c == LS || c == PS
    ensures c in Insert(file, dir) <==> (c == LS || c == PS) && (c in file || c in dir)
  {
    var a, b := "var __filename = ", ", __dirname = ";
    assert c !in a && c !in b && c !in ";" && c !in "\"";
    JsonHas(file, c);
    JsonHas(dir, c);
    InConcat(a, Json(file), c);
    InConcat(a + Json(file), b, c);
    InConcat(a + Json(file) + b, Json(dir), c);
    InConcat(a + Json(file) + b + Json(dir), ";", c);
  }

  lemma JsonHas(s: string, c: char)
    requires c == '\n' || c == '\r' || c == LS || c == PS
    ensures c in Json(s) <==> (c == LS || c == PS) && c in s
  {
    EscapedHas(s, c);
    InConcat("\"", EscapeAll(s), c);
    InConcat("\"" + EscapeAll(s), "\"", c);
  }

  lemma InConcat(s: string, t: string, c: char)
    ensures c in s + t <==> c in s || c in t
  {
  }

  // ----- what the place is in -----

  lemma {:induction false} DirectiveModes(src: string, from: nat, d: Directive)
    requires IsDirective(src, d) && from <= d.start && Scanned(src, from, d.start) == Code
    ensures from <= d.end <= |src| && Scanned(src, from, d.end) == Code
  {
    SkipModes(src, from, d.start);
    assert Scanned(src, from, d.open + 1) == InString(src[d.open]);
    StringModes(src, from, d.open + 1, d.close, src[d.open]);
    if d.end != d.close { SkipModes(src, from, d.close); }
  }

  lemma {:induction false} DirectivesModes(src: string, from: nat, ds: seq<Directive>, j: nat)
    requires from <= |src| && Directives(src, ds, from, j)
    ensures from <= j <= |src| && Scanned(src, from, j) == Code
    decreases |ds|
  {
    if ds != [] {
      var n := |ds| - 1;
      assert Directives(src, ds[..n], from, ds[n].start);
      DirectivesModes(src, from, ds[..n], ds[n].start);
      DirectiveModes(src, from, ds[n]);
    }
  }

  /** The last comment of the trivia has no end: what is put after it is part of it. */
  predicate EndsInComment(ps: seq<Piece>) { ps != [] && (ps[|ps| - 1].Line? || ps[|ps| - 1].Unclosed?) }

  /**
   The place is inside no string, and inside a comment exactly if the source ends there, in a
   line comment without a line feed or a comment that is not closed.
   */
  lemma {:induction false} InsideCommentIff(src: string, from: nat, at: nat, lead: string, ds: seq<Directive>, mid: nat)
    requires Placed(src, from, at, lead, ds, mid)
    ensures Read(src, mid, at, if lead == "" then Pieces(src, mid) else [])
    ensures !InLiteral(Scanned(src, from, at))
    ensures InComment(Scanned(src, from, at)) <==> lead == "" && at == |src| && EndsInComment(Pieces(src, mid))
    ensures Scanned(src, from, at) in {Code, InLine, InBlock}
  {
    DirectivesModes(src, from, ds, mid);
    SkipModes(src, from, mid);
    SkippedIsPieces(src, mid);
  }

  lemma {:induction false} SameBefore(src: string, out: string, from: nat, at: nat, k: nat)
    requires from <= k < at <= |src| && at <= |out| && src[..at] == out[..at]
    ensures Scanned(out, from, k) == Scanned(src, from, k)
    decreases k
  {
    if k > from {
      SameBefore(src, out, from, at, k - 1);
      assert src[k - 1] == src[..at][k - 1] && src[k] == src[..at][k] && out[k - 1] == out[..at][k - 1] && out[k] == out[..at][k];
    }
  }

  /** What is put at the place does not change what the place is in. */
  lemma {:induction false} SameAt(src: string, out: string, from: nat, at: nat)
    requires from <= at <= |src| && at < |out| && src[..at] == out[..at] && out[at] != '/' && out[at] != '*'
    requires Scanned(src, from, at) in {Code, InLine, InBlock}
    ensures Scanned(out, from, at) == Scanned(src, from, at)
  {
    if at > from {
      SameBefore(src, out, from, at, at - 1);
      assert src[at - 1] == src[..at][at - 1] && out[at - 1] == out[..at][at - 1];
    }
  }

  /** In the output the prefix starts in code, except exactly where the place is in a comment at the end of the source. */
  lemma {:induction false} StartsInCodeIff(src: string, out: string, from: nat, at: nat, lead: string, file: string, dir: string, ds: seq<Directive>, mid: nat)
    requires Placed(src, from, at, lead, ds, mid) && out == src[..at] + lead + Insert(file, dir) + src[at..]
    ensures Scanned(out, from, at) in {Code, InLine, InBlock}
    ensures Scanned(out, from, at) == Code <==> !(lead == "" && at == |src| && EndsInComment(Pieces(src, mid)))
  {
    InsideCommentIff(src, from, at, lead, ds, mid);
    InsertStarts(file, dir);
    assert out[at] == (lead + Insert(file, dir))[0] && out[..at] == src[..at];
    SameAt(src, out, from, at);
  }

  lemma InsertStarts(file: string, dir: string)
    ensures |Insert(file, dir)| > 0 && Insert(file, dir)[0] == 'v'
  {
  }

  /** A prefix put after a line comment that nothing ends is part of it from beginning to end. */
  lemma {:induction false} TrailingCommentSwallows(src: string, from: nat, file: string, dir: string, k: nat)
    requires from <= |src| && Scanned(src, from, |src|) == InLine
    requires |src| <= k <= |src + Insert(file, dir)|
    ensures Scanned(src + Insert(file, dir), from, k) == InLine
    decreases k
  {
    var out := src + Insert(file, dir);
    if k == |src| {
      InsertStarts(file, dir);
      assert out[..|src|] == src[..|src|];
      SameAt(src, out, from, |src|);
    } else {
      TrailingCommentSwallows(src, from, file, dir, k - 1);
      InsertBreaks(file, dir, '\n');
      assert out[k - 1] in Insert(file, dir);
    }
  }

  // ----- by ECMAScript's rules: the header -----

  /** After the line end at `t`, CR LF being one. */
  function AfterTerminator(src: string, t: nat): nat {
    if t >= |src| then |src| else if src[t] == '\r' && At(src, t + 1, '\n') then t + 2 else t + 1
  }

  /** Where code starts: a hashbang comment (section 12.5 of ECMA-262, 2023) ends where its line does. */
  function EcmaCodeStart(src: string): nat {
    if Hashbang(src) then AfterTerminator(src, TerminatorFrom(src, MarkEnd(src))) else MarkEnd(src)
  }

  /** Where code starts for the scanner: nowhere, after a hashbang it finds no end of. */
  function CodeStart(src: string): nat { if HeaderEnd(src) == -1 then |src| else HeaderEnd(src) }

  /** The hashbang line, up to its line feed, holds another line end that is not the carriage return of a CR LF, or the last character. */
  predicate HeaderMisread(src: string) {
    var end := LineEndOf(src, MarkEnd(src));
    Hashbang(src) &&
    exists k :: MarkEnd(src) <= k < end && k < |src| && src[k] in TERMINATORS && !(k + 1 == end && (src[k] == '\r' || end == |src|))
  }

  lemma {:induction false} LineFeedIs(src: string, i: nat)
    requires i <= |src|
    ensures LineFeedAfter(src, i) == if LineEndOf(src, i) == |src| then -1 else LineEndOf(src, i) + 1
    decreases |src| - i
  {
    LineEndFacts(src, i);
    if i < |src| && src[i] != '\n' { LineFeedIs(src, i + 1); }
  }

  /** The scanner and ECMAScript start the code at the same place exactly if the header is not misread. */
  lemma {:induction false} HeaderAgreesIff(src: string)
    ensures CodeStart(src) == EcmaCodeStart(src) <==> !HeaderMisread(src)
  {
    var i := MarkEnd(src);
    if Hashbang(src) {
      LineFeedIs(src, i);
      LineEndFacts(src, i);
      TerminatorFacts(src, i);
      var t, end := TerminatorFrom(src, i), LineEndOf(src, i);
      assert t <= end;
      if t < end && !(t + 1 == end && (src[t] == '\r' || end == |src|)) { assert HeaderMisread(src); }
    }
  }

  // ----- by ECMAScript's rules: the place -----

  /** From the start of the source up to `n`, the scanners read it as ECMAScript does. */
  ghost predicate AgreeFromStart(src: string, n: nat)
    requires n <= |src|
  {
    CodeStart(src) == EcmaCodeStart(src) && AgreeUpTo(src, CodeStart(src), n)
  }

  /**
   Up to the place, the scanners read the source as ECMAScript does exactly if they misread
   nothing: no other line end in the hashbang line, no carriage return, U+2028 or U+2029 in a
   line comment, no carriage return in a string.  Then the place is in no string, and in code
   except exactly at the end of the source, after a comment nothing ends, by ECMAScript's rules too.
   */
  lemma {:induction false} EcmaScriptAgreesIff(src: string, at: nat, lead: string, ds: seq<Directive>, mid: nat)
    requires HeaderEnd(src) != -1 && Placed(src, HeaderEnd(src), at, lead, ds, mid)
    ensures AgreeFromStart(src, at) <==> !HeaderMisread(src) && NoneMisread(src, HeaderEnd(src), at)
    ensures !HeaderMisread(src) && NoneMisread(src, HeaderEnd(src), at) ==>
      && EcmaCodeStart(src) <= at && !InLiteral(ModeAt(ECMASCRIPT, src, EcmaCodeStart(src), at))
      && (ModeAt(ECMASCRIPT, src, EcmaCodeStart(src), at) == Code <==>
          !(lead == "" && at == |src| && EndsInComment(Pieces(src, mid))))
  {
    var from := HeaderEnd(src);
    HeaderAgreesIff(src);
    InsideCommentIff(src, from, at, lead, ds, mid);
    AgreeIffNoneMisread(src, from, at);
    assert AgreeUpTo(src, from, at) ==> Scanned(src, from, at) == ModeAt(ECMASCRIPT, src, from, at);
  }

  /** A hashbang line that a carriage return ends, and a comment that a line feed is in. */
  const HASHBANG := "#!x\r/*\n*/y"

  /** The scanner reads the hashbang line on to the line feed, and the place is inside the comment. */
  lemma {:induction false} HashbangMisplaces(src: string)
    requires src == HASHBANG
    ensures HeaderEnd(src) == 7 && Placed(src, 7, 7, "", [], 7) && NoneMisread(src, 7, 7) && HeaderMisread(src)
    ensures EcmaCodeStart(src) == 4 && InComment(ModeAt(ECMASCRIPT, src, 4, 7))
  {
    LineFeedIs(src, 0);
    LineEndIs(src, 0, 6);
    assert src[3] in TERMINATORS;
    TerminatorIs(src, 0, 3);
    assert !TriviaAt(src, 7);
    NoQuote(src, 7);
    assert ModeAt(ECMASCRIPT, src, 4, 5) == BlockOpen;
    assert ModeAt(ECMASCRIPT, src, 4, 6) == InBlock;
  }

  /** A hashbang line that a carriage return ends and no line feed follows: the code after it gets no prefix. */
  lemma {:induction false} HashbangUnprefixed(src: string)
    requires src == "#!x\rc"
    ensures HeaderEnd(src) == -1 && HeaderMisread(src) && EcmaCodeStart(src) == 4 < |src|
  {
    LineFeedIs(src, 0);
    LineEndIs(src, 0, 5);
    assert src[3] in TERMINATORS;
    TerminatorIs(src, 0, 3);
  }

  lemma {:induction false} LineEndIs(src: string, i: nat, t: nat)
    requires i <= t <= |src| && (t == |src| || src[t] == '\n') && forall k :: i <= k < t ==> src[k] != '\n'
    ensures LineEndOf(src, i) == t
    decreases t - i
  {
    if i < t { LineEndIs(src, i + 1, t); }
  }

  /** `//`, a carriage return, and a comment that a line feed is in. */
  const MISREAD := "//\r/*\nx*/"

  lemma {:induction false} MisreadModes()
    ensures ModeAt(ECMASCRIPT, MISREAD, 0, 6) == InBlock
    ensures Scanned(MISREAD, 0, 2) == InLine && Misread(Scanned(MISREAD, 0, 2), MISREAD, 2)
  {
    assert ModeAt(ECMASCRIPT, MISREAD, 0, 1) == LineOpen;
    assert ModeAt(ECMASCRIPT, MISREAD, 0, 2) == InLine;
    assert ModeAt(ECMASCRIPT, MISREAD, 0, 3) == Code;
    assert ModeAt(ECMASCRIPT, MISREAD, 0, 4) == BlockOpen;
    assert ModeAt(ECMASCRIPT, MISREAD, 0, 5) == InBlock;
    assert Scanned(MISREAD, 0, 1) == LineOpen;
  }

  lemma {:induction false} MisreadSkipped()
    ensures SkipEnd(MISREAD, 0) == 6
  {
    assert LineEndOf(MISREAD, 5) == 5;
    assert LineEndOf(MISREAD, 3) == 5;
    assert LineEndOf(MISREAD, 1) == 5;
    assert LineEndOf(MISREAD, 0) == 5;
    assert TriviaAt(MISREAD, 0) && PieceEnd(MISREAD, 0) == 5;
    assert TriviaAt(MISREAD, 5) && PieceEnd(MISREAD, 5) == 6;
    assert !TriviaAt(MISREAD, 6);
  }

  /** A carriage return in a line comment: the scanner reads on to the line feed, and the place is inside the next comment. */
  lemma {:induction false} CarriageReturnMisplaces()
    ensures HeaderEnd(MISREAD) == 0 && Placed(MISREAD, 0, 6, "", [], 0)
    ensures InComment(ModeAt(ECMASCRIPT, MISREAD, 0, 6)) && 6 < |MISREAD|
    ensures Misread(Scanned(MISREAD, 0, 2), MISREAD, 2)
  {
    MisreadModes();
    MisreadSkipped();
    NoQuote(MISREAD, 6);
  }

  lemma NoQuote(src: string, p: nat)
    requires p < |src| && src[p] != '\'' && src[p] != '"'
    ensures NoDirective(src, p)
  {
  }

  // ----- by ECMAScript's rules: directives -----

  predicate Digit(c: char) { '0' <= c <= '9' }

  /** Part of an identifier; beyond ASCII, anything but white space and line ends. */
  predicate IdPart(c: char) {
    WordChar(c) || c == '$' || c == '\\' || (c as int >= 128 && c !in WHITE && c !in TERMINATORS)
  }

  predicate KeywordAt(src: string, i: nat, w: string) { StartsAt(src, i, w) && (i + |w| == |src| || !IdPart(src[i + |w|])) }

  /** The characters that only begin tokens which continue an expression. */
  const JOINS := {'(', '[', '`', '*', '/', '%', ',', '?', '=', '<', '>', '&', '|', '^'}

  /**
   The token at `a`, on a new line, can continue an expression that a string literal begins.
   `++` and `--` cannot, and a period before a digit begins a number.
   */
  predicate Continues(src: string, a: nat)
    requires a < |src|
  {
    || src[a] in JOINS
    || (src[a] == '!' && At(src, a + 1, '='))
    || (src[a] == '+' && !At(src, a + 1, '+')) || (src[a] == '-' && !At(src, a + 1, '-'))
    || (src[a] == '.' && !(a + 1 < |src| && Digit(src[a + 1])))
    || KeywordAt(src, a, "in") || KeywordAt(src, a, "instanceof")
  }

  /**
   The literal that ends at `q` is a whole statement: a semicolon follows, or one is inserted
   (section 12.10 of ECMA-262, 2023), at the end of the source, before a brace, or at a line end
   before a token that cannot continue it.
   */
  predicate EndsStatement(src: string, q: nat)
    requires q <= |src|
  {
    var a := TokenAfter(src, q);
    a == |src| || src[a] == ';' || src[a] == '}' || (LineEndsIn(src, q, a) && !Continues(src, a))
  }

  /** A directive (section 11.2.1 of ECMA-262, 2023), if nothing but directives comes before it. */
  ghost predicate EcmaDirective(src: string, p: nat, q: nat) { EcmaLiteral(src, p, q) && EndsStatement(src, q) }

  /** What the scanner takes for the end of a directive. */
  ghost predicate TakenForEnd(src: string, q: nat)
    requires q <= |src|
  {
    At(src, SkipEnd(src, q), ';') || ByInsertion(src, q)
  }

  /** The scanner finds the token after `q`. */
  predicate SameToken(src: string, q: nat)
    requires q <= |src|
  {
    TokenAfter(src, q) == SkipEnd(src, q)
  }

  /** A token that begins with a character of CONTINUES and yet cannot continue an expression on a new line. */
  predicate Lone(src: string, a: nat)
    requires a < |src|
  {
    || (src[a] == '!' && !At(src, a + 1, '='))
    || (src[a] == '+' && At(src, a + 1, '+')) || (src[a] == '-' && At(src, a + 1, '-'))
    || (src[a] == '.' && a + 1 < |src| && Digit(src[a + 1]))
  }

  /** An identifier that starts like one of the two keywords. */
  predicate LikeKeyword(src: string, a: nat) {
    (WordIs(src, a, "in") && !KeywordAt(src, a, "in")) || (WordIs(src, a, "instanceof") && !KeywordAt(src, a, "instanceof"))
  }

  /**
   Where the scanner lets the prologue end though a statement does: no line end but a carriage
   return, a lone `!`, `++`, `--` or number, or an identifier like a keyword.
   */
  predicate Unsure(src: string, q: nat)
    requires q <= |src|
  {
    var a := SkipEnd(src, q);
    a < |src| && src[a] != ';' && src[a] != '}' && (!SkipBreaks(src, q) || Lone(src, a) || LikeKeyword(src, a))
  }

  lemma {:induction false} SkipBreaksHas(src: string, i: nat)
    requires i <= |src| && SkipBreaks(src, i)
    ensures LineEndsIn(src, i, SkipEnd(src, i))
    decreases |src| - i
  {
    if PieceBreaks(src, i) {
      var end := PieceEnd(src, i);
      var m :| i <= m < end && src[m] in NEWLINES;
      assert m < SkipEnd(src, i) && src[m] in TERMINATORS;
    } else {
      SkipBreaksHas(src, PieceEnd(src, i));
    }
  }

  lemma KeywordIsWord(src: string, a: nat, w: string)
    ensures KeywordAt(src, a, w) ==> WordIs(src, a, w)
  {
  }

  lemma ContinuesOrLone(src: string, a: nat)
    requires a < |src|
    ensures src[a] in CONTINUES ==> Continues(src, a) || Lone(src, a)
    ensures Lone(src, a) ==> src[a] in CONTINUES
    ensures Continues(src, a) ==> src[a] in CONTINUES || WordIs(src, a, "in") || WordIs(src, a, "instanceof")
  {
    KeywordIsWord(src, a, "in");
    KeywordIsWord(src, a, "instanceof");
  }

  /**
   Where the scanner finds the token after a literal, it takes the literal for a directive exactly
   if it is a statement of its own and the scanner is not unsure.
   */
  lemma {:induction false} DirectiveTestIff(src: string, q: nat)
    requires q <= |src| && SameToken(src, q)
    ensures TakenForEnd(src, q) <==> EndsStatement(src, q) && !Unsure(src, q)
  {
    var a := SkipEnd(src, q);
    if SkipBreaks(src, q) { SkipBreaksHas(src, q); }
    if a < |src| { ContinuesOrLone(src, a); }
  }

  /** A directive of ECMAScript, where the scanner finds the token after it, is one for the scanner exactly if neither test goes wrong. */
  lemma {:induction false} DirectiveTakenIff(src: string, p: nat, q: nat)
    requires EcmaDirective(src, p, q) && SameToken(src, q)
    ensures LiteralAt(src, p, q) && TakenForEnd(src, q) <==> !EscapedCrLf(src, p, q) && !Unsure(src, q)
  {
    LiteralFoundIff(src, p, q);
    DirectiveTestIff(src, q);
  }

  /** Nothing up to the token after `q` is misread, and no white space or comment that the scanner does not know stands there. */
  ghost predicate ReadAlike(src: string, from: nat, q: nat) {
    && from <= q <= |src| && NoneMisread(src, from, SkipEnd(src, q))
    && !GapAt(src, SkipEnd(src, q), LineEndsIn(src, q, SkipEnd(src, q)))
  }

  lemma {:induction false} LiteralIsOne(src: string, from: nat, p: nat, q: nat)
    requires LiteralAt(src, p, q) && from <= p && Scanned(src, from, p) == Code && NoneMisread(src, from, q)
    ensures EcmaLiteral(src, p, q)
  {
    forall k | p <= k < q ensures !Misread(Scanned(src, p, k), src, k) {
      ModeShift(SCANNER, src, from, p, k);
      assert !Misread(Scanned(src, from, k), src, k);
    }
    ClosedIffEnclosed(src, p, q);
    EnclosedAlike(src, p, q);
  }

  lemma {:induction false} DirectiveIsOne(src: string, from: nat, d: Directive)
    requires IsDirective(src, d) && from <= d.start && Scanned(src, from, d.start) == Code && ReadAlike(src, from, d.close)
    ensures TokenAfter(src, d.start) == d.open && EcmaDirective(src, d.open, d.close)
  {
    OpensAlike(src, from, d.start, d.open, d.close);
    LiteralIsOne(src, from, d.open, d.close);
    ClosesAlike(src, from, d.open, d.close);
    DirectiveTestIff(src, d.close);
  }

  lemma {:induction false} OpensAlike(src: string, from: nat, i: nat, p: nat, q: nat)
    requires from <= i <= |src| && Scanned(src, from, i) == Code && SkipEnd(src, i) == p && LiteralAt(src, p, q)
    requires NoneMisread(src, from, q)
    ensures TokenAfter(src, i) == p && Scanned(src, from, p) == Code
  {
    SkipModes(src, from, i);
    SameTokenIff(src, from, i, 0 < i && src[i - 1] in TERMINATORS);
    NoGap(src, p, (0 < i && src[i - 1] in TERMINATORS) || LineEndsIn(src, i, p));
  }

  lemma {:induction false} ClosesAlike(src: string, from: nat, p: nat, q: nat)
    requires LiteralAt(src, p, q) && from <= p && Scanned(src, from, p) == Code && ReadAlike(src, from, q)
    ensures SameToken(src, q)
  {
    LiteralModes(src, from, p, q);
    SameTokenIff(src, from, q, false);
  }

  lemma {:induction false} LiteralModes(src: string, from: nat, p: nat, q: nat)
    requires LiteralAt(src, p, q) && from <= p && Scanned(src, from, p) == Code
    ensures Scanned(src, from, q) == Code && src[q - 1] !in TERMINATORS
  {
    assert Scanned(src, from, p + 1) == InString(src[p]);
    StringModes(src, from, p + 1, q, src[p]);
  }

  /** Why the scanner left the directive that ends at `q`, the next statement after `mid`, behind the place. */
  ghost predicate LeftFor(src: string, mid: nat, at: nat, q: nat)
    requires mid <= at <= |src| && q <= |src|
  {
    var p := TokenAfter(src, mid);
    if p != at then GapAt(src, at, (0 < mid && src[mid - 1] in TERMINATORS) || LineEndsIn(src, mid, at))
    else EscapedCrLf(src, p, q) || !SameToken(src, q) || Unsure(src, q)
  }

  lemma {:induction false} LeftOnlyFor(src: string, from: nat, mid: nat, at: nat, q: nat)
    requires from <= mid <= |src| && Scanned(src, from, mid) == Code && SkipEnd(src, mid) == at && NoDirective(src, at)
    requires NoneMisread(src, from, at) && EcmaDirective(src, TokenAfter(src, mid), q)
    ensures LeftFor(src, mid, at, q)
  {
    SameTokenIff(src, from, mid, 0 < mid && src[mid - 1] in TERMINATORS);
    var p := TokenAfter(src, mid);
    if p == at && SameToken(src, q) {
      DirectiveTakenIff(src, p, q);
      assert LiteralAt(src, p, q) ==> !BySemicolon(src, q, SkipEnd(src, q) + 1) && !ByInsertion(src, q);
    }
  }

  /**
   Every directive before the place is one by ECMAScript's rules, with nothing between it and the
   one before, if nothing up to the token after it is misread.
   */
  lemma {:induction false} OnlyDirectivesBefore(src: string, from: nat, at: nat, lead: string, ds: seq<Directive>, mid: nat, k: nat)
    requires Placed(src, from, at, lead, ds, mid) && k < |ds| && ReadAlike(src, from, ds[k].close)
    ensures ds[k].start <= |src| && TokenAfter(src, ds[k].start) == ds[k].open && EcmaDirective(src, ds[k].open, ds[k].close)
  {
    assert Directives(src, ds[..k], from, ds[k].start);
    DirectivesModes(src, from, ds[..k], ds[k].start);
    DirectiveIsOne(src, from, ds[k]);
  }

  /**
   If nothing before the place is misread and a directive is left behind it, it is for one of the
   reasons of `LeftFor`; if the prefix follows the last directive at once, and nothing up to the
   token after that is misread, none is.
   */
  lemma {:induction false} LeftBehindOnlyFor(src: string, from: nat, at: nat, lead: string, ds: seq<Directive>, mid: nat, q: nat)
    requires Placed(src, from, at, lead, ds, mid) && EcmaDirective(src, TokenAfter(src, mid), q)
    requires if lead == "" then NoneMisread(src, from, at) else ReadAlike(src, from, mid)
    ensures lead == "" && LeftFor(src, mid, at, q)
  {
    DirectivesModes(src, from, ds, mid);
    if lead == "" { LeftOnlyFor(src, from, mid, at, q); } else { NoneAfterLast(src, from, ds, mid, q); }
  }

  lemma {:induction false} NoneAfterLast(src: string, from: nat, ds: seq<Directive>, mid: nat, q: nat)
    requires from <= |src| && Directives(src, ds, from, mid) && ds != [] && ds[|ds| - 1].close == mid
    requires mid <= |src| && NothingFollows(src, mid) && ReadAlike(src, from, mid)
    ensures !EcmaDirective(src, TokenAfter(src, mid), q)
  {
    var n := |ds| - 1;
    assert Directives(src, ds[..n], from, ds[n].start);
    DirectivesModes(src, from, ds[..n], ds[n].start);
    SkipModes(src, from, ds[n].start);
    ClosesAlike(src, from, ds[n].open, mid);
  }

  // ----- by ECMAScript's rules: failing inputs -----

  lemma {:induction false} ShortLiteral(src: string, q: nat)
    requires StartsAt(src, 0, "'a'")
    ensures LiteralAt(src, 0, q) <==> q == 3
    ensures EcmaLiteral(src, 0, 3)
  {
    assert src[0] == '\'' && src[1] == 'a' && src[2] == '\'' by { assert src[0..3] == "'a'"; }
    Ordinary(src, 1, q, '\'');
    NotInside(src, 2, q, '\'');
    assert ModeAt(ECMASCRIPT, src, 0, 1) == InString('\'');
    assert ModeAt(ECMASCRIPT, src, 0, 2) == InString('\'');
  }

  /** A directive, a line feed, and any token that begins like one that continues it and does not: the prefix is put in front of the directive. */
  lemma {:induction false} LoneTokenDemotes(src: string)
    requires StartsAt(src, 0, "'a'") && At(src, 3, '\n') && 4 < |src| && Lone(src, 4) && !StartsAt(src, 4, "-->")
    ensures HeaderEnd(src) == 0 && Placed(src, 0, 0, "", [], 0) && EcmaDirective(src, 0, 3) && Unsure(src, 3)
  {
    assert src[0] == '\'' && src[2] == '\'' by { assert src[0..3] == "'a'"; }
    assert TriviaAt(src, 3) && PieceEnd(src, 3) == 4 && !TriviaAt(src, 4) && SkipEnd(src, 3) == 4;
    assert !TriviaAt(src, 0) && SkipEnd(src, 0) == 0;
    ShortLiteral(src, 3);
    NextAfterFeed(src);
    NotTaken(src);
  }

  lemma {:induction false} NotTaken(src: string)
    requires StartsAt(src, 0, "'a'") && 4 < |src| && Lone(src, 4) && SkipEnd(src, 3) == 4
    ensures NoDirective(src, 0)
  {
    ContinuesOrLone(src, 4);
    assert !ByInsertion(src, 3) && src[4] != ';';
    forall q: nat, end: nat | LiteralAt(src, 0, q) ensures !BySemicolon(src, q, end) && !ByInsertion(src, q) { ShortLiteral(src, q); }
  }

  lemma {:induction false} NextAfterFeed(src: string)
    requires StartsAt(src, 0, "'a'") && At(src, 3, '\n') && 4 < |src| && Lone(src, 4) && !StartsAt(src, 4, "-->")
    ensures TokenAfter(src, 3) == 4 && LineEndsIn(src, 3, 4) && !Continues(src, 4)
  {
    assert src[2] == '\'' by { assert src[0..3] == "'a'"; }
    assert GapAt(src, 3, false) && GapEnd(src, 3, false) == 4 && src[3] in TERMINATORS;
    NoGap(src, 4, true);
    LoneNotKeyword(src, 4);
  }

  lemma LoneNotKeyword(src: string, a: nat)
    requires a < |src| && Lone(src, a)
    ensures !Continues(src, a)
  {
    NotStartsAt(src, a, "in", 0);
    NotStartsAt(src, a, "instanceof", 0);
  }

  /** Four such sources: a lone `!`, `++`, `--` and a number. */
  lemma {:induction false} LoneTokens(src: string)
    requires src == "'a'\n!x" || src == "'a'\n++x" || src == "'a'\n--x" || src == "'a'\n.5"
    ensures HeaderEnd(src) == 0 && Placed(src, 0, 0, "", [], 0) && EcmaDirective(src, 0, 3)
  {
    assert src[0..3] == "'a'";
    NotStartsAt(src, 4, "-->", 2);
    LoneTokenDemotes(src);
  }

  /** A literal, a line comment that a carriage return ends, and an operator: no directive, but taken for one. */
  lemma {:induction false} CommentMistaken(src: string)
    requires src == "'a'//\r+b\nc"
    ensures HeaderEnd(src) == 0 && Placed(src, 0, 9, "", [Directive(0, 0, 3, 3)], 3)
    ensures EcmaLiteral(src, 0, 3) && !EndsStatement(src, 3)
  {
    assert src[0..3] == "'a'";
    ShortLiteral(src, 3);
    MistakenSkips(src);
    assert !TriviaAt(src, 0) && SkipEnd(src, 0) == 0;
    NoQuote(src, 9);
    assert IsDirective(src, Directive(0, 0, 3, 3));
    MistakenToken(src);
  }

  /** A literal, a line feed, a space the scanner does not know, and an operator: no directive, but taken for one. */
  lemma {:induction false} SpaceMistaken(src: string)
    requires src == "'a'\n\U{3000}+x"
    ensures LiteralAt(src, 0, 3) && TakenForEnd(src, 3) && EcmaLiteral(src, 0, 3) && !EndsStatement(src, 3)
  {
    assert src[0..3] == "'a'";
    ShortLiteral(src, 3);
    SpaceSkips(src);
    SpaceToken(src);
  }

  lemma {:induction false} SpaceSkips(src: string)
    requires src == "'a'\n\U{3000}+x"
    ensures TakenForEnd(src, 3)
  {
    assert TriviaAt(src, 3) && PieceEnd(src, 3) == 4 && PieceBreaks(src, 3);
    assert !TriviaAt(src, 4) && SkipEnd(src, 3) == 4;
    assert !WordIs(src, 4, "in") && !WordIs(src, 4, "instanceof") by {
      assert 4 + 2 <= |src| ==> src[4..4 + 2][0] == src[4];
    }
  }

  lemma {:induction false} SpaceToken(src: string)
    requires src == "'a'\n\U{3000}+x"
    ensures !EndsStatement(src, 3)
  {
    assert GapAt(src, 3, false) && GapEnd(src, 3, false) == 4 && src[3] in TERMINATORS && LineEndsIn(src, 3, 4);
    assert GapAt(src, 4, true) && GapEnd(src, 4, true) == 5;
    NoGap(src, 5, true);
    assert NextToken(src, 4, true) == 5 && TokenAfter(src, 3) == 5;
  }

  lemma {:induction false} MistakenSkips(src: string)
    requires src == "'a'//\r+b\nc"
    ensures SkipEnd(src, 3) == 9 && SkipBreaks(src, 3)
  {
    LineEndIs(src, 3, 8);
    assert TriviaAt(src, 3) && PieceEnd(src, 3) == 8;
    assert TriviaAt(src, 8) && PieceEnd(src, 8) == 9 && PieceBreaks(src, 8);
    assert !TriviaAt(src, 9) && SkipEnd(src, 8) == 9 && SkipBreaks(src, 8);
  }

  lemma {:induction false} MistakenToken(src: string)
    requires src == "'a'//\r+b\nc"
    ensures TokenAfter(src, 3) == 6 && !EndsStatement(src, 3)
  {
    TerminatorIs(src, 3, 5);
    assert StartsAt(src, 3, "//") && GapAt(src, 3, false) && GapEnd(src, 3, false) == 5;
    assert !LineEndsIn(src, 3, 5);
    assert GapAt(src, 5, false) && GapEnd(src, 5, false) == 6;
    NoGap(src, 6, true);
    assert src[5] in TERMINATORS && LineEndsIn(src, 5, 6) && NextToken(src, 5, false) == 6;
  }

  // ----- lines -----

  function Feeds(s: string): nat { if s == "" then 0 else Feeds(s[..|s| - 1]) + if s[|s| - 1] == '\n' then 1 else 0 }

  lemma {:induction false} FeedsConcat(s: string, t: string)
    ensures Feeds(s + t) == Feeds(s) + Feeds(t)
    decreases |t|
  {
    if t == "" {
      assert s + t == s;
    } else {
      assert (s + t)[..|s + t| - 1] == s + t[..|t| - 1];
      FeedsConcat(s, t[..|t| - 1]);
    }
  }

  lemma {:induction false} NoFeeds(s: string)
    requires '\n' !in s
    ensures Feeds(s) == 0
    decreases |s|
  {
    if s != "" { NoFeeds(s[..|s| - 1]); }
  }

  /** The character of the source at `k` is in the output, `n` characters on if it comes after the place, and on the same line. */
  predicate KeepsLine(src: string, out: string, at: nat, n: nat, k: nat)
    requires k < |src|
  {
    var k' := if k < at then k else k + n;
    k' < |out| && out[k'] == src[k] && Feeds(out[..k']) == Feeds(src[..k])
  }

  /** Every character of the source keeps its line: as many line feeds come before it as did. */
  lemma {:induction false} LinesKept(src: string, at: nat, added: string, k: nat)
    requires at <= |src| && k < |src| && '\n' !in added
    ensures KeepsLine(src, src[..at] + added + src[at..], at, |added|, k)
  {
    var out := src[..at] + added + src[at..];
    if k < at {
      assert out[..k] == src[..k];
    } else {
      assert out[..k + |added|] == src[..at] + added + src[at..k];
      FeedsConcat(src[..at] + added, src[at..k]);
      FeedsConcat(src[..at], added);
      NoFeeds(added);
      assert src[..k] == src[..at] + src[at..k];
      FeedsConcat(src[..at], src[at..k]);
    }
  }

  lemma {:induction false} PrefixLines(src: string, out: string, at: nat, lead: string, insert: string)
    requires at <= |src| && (lead == "" || lead == ";") && '\n' !in insert && out == src[..at] + lead + insert + src[at..]
    ensures forall k :: 0 <= k < |src| ==> KeepsLine(src, out, at, |lead + insert|, k)
  {
    var added := lead + insert;
    InConcat(lead, insert, '\n');
    assert out == src[..at] + added + src[at..];
    forall k | 0 <= k < |src| ensures KeepsLine(src, out, at, |added|, k) { LinesKept(src, at, added, k); }
  }

  // ----- prefixSource -----

  lemma PushDirective(src: string, ds: seq<Directive>, i: nat, j: nat, d: Directive)
    requires Directives(src, ds, i, j) && IsDirective(src, d) && d.start == j
    ensures Directives(src, ds + [d], i, d.end)
  {
  }

  method LineFeed(src: string, i: nat) returns (r: int)
    ensures r == LineFeedAfter(src, i) && (r == -1 || i < r <= |src|)
  {
    var j := i;
    while j < |src|
      invariant i <= j && LineFeedAfter(src, i) == LineFeedAfter(src, j)
    {
      if src[j] == '\n' { return j + 1; }
      j := j + 1;
    }
    return -1;
  }

  method HeaderOf(src: string) returns (r: int)
    ensures r == HeaderEnd(src) && -1 <= r <= |src|
  {
    r := if At(src, 0, BOM) then 1 else 0;
    if At(src, r, '#') && At(src, r + 1, '!') { r := LineFeed(src, r); }
  }

  /** What the scanner makes of the text at `p`: no directive, or one that ends where it says. */
  datatype Finding = Nothing | Closed(close: nat, end: nat) | AtEnd(close: nat) | Unmarked(close: nat)

  ghost predicate Finds(src: string, p: nat, f: Finding)
    requires p <= |src|
  {
    match f
    case Nothing => NoDirective(src, p)
    case Closed(q, end) => LiteralAt(src, p, q) && BySemicolon(src, q, end)
    case AtEnd(q) => LiteralAt(src, p, q) && NothingFollows(src, q)
    case Unmarked(q) => LiteralAt(src, p, q) && ByInsertion(src, q)
  }

  method FindDirective(src: string, p: nat) returns (f: Finding)
    requires p <= |src|
    ensures Finds(src, p, f)
  {
    if !At(src, p, '\'') && !At(src, p, '"') { return Nothing; }
    var q := StringEnd(src, p);
    if q < 0 { return Nothing; }
    var a, sawNewline, ps := SkipSpaceAndComments(src, q);
    if At(src, a, ';') { return Closed(q, a + 1); }
    if a >= |src| || src[a] == '}' { return AtEnd(q); }
    var word := WordIs(src, a, "instanceof") || WordIs(src, a, "in");
    if sawNewline && src[a] !in CONTINUES && !word { return Unmarked(q); }
    return Nothing;
  }

  /** The place of the prefix after a header that ends at `from`. */
  method PrefixPlace(src: string, from: nat) returns (at: nat, lead: string)
    requires from <= |src|
    ensures at <= |src| && exists ds, mid: nat :: Placed(src, from, at, lead, ds, mid)
  {
    var i := from;
    ghost var ds: seq<Directive> := [];
    while true
      invariant from <= i <= |src| && Directives(src, ds, from, i)
      decreases |src| - i
    {
      var p, _, ps := SkipSpaceAndComments(src, i);
      var found := FindDirective(src, p);
      match found {
        case Nothing =>
          assert Placed(src, from, p, "", ds, i);
          return p, "";
        case Closed(q, end) =>
          PushDirective(src, ds, from, i, Directive(i, p, q, end));
          i, ds := end, ds + [Directive(i, p, q, end)];
        case AtEnd(q) =>
          PushDirective(src, ds, from, i, Directive(i, p, q, q));
          assert Placed(src, from, q, ";", ds + [Directive(i, p, q, q)], q);
          return q, ";";
        case Unmarked(q) =>
          PushDirective(src, ds, from, i, Directive(i, p, q, q));
          i, ds := q, ds + [Directive(i, p, q, q)];
      }
    }
  }

  /** The prefix starts in code, or after a comment that nothing ends, at the end of the source. */
  predicate StartsWell(src: string, out: string, from: nat, at: nat, lead: string)
    requires from <= at <= |out|
  {
    var m := Scanned(out, from, at);
    m == Code || (at == |src| && lead == "" && m in {InLine, InBlock})
  }

  /**
   The source with the prefix in its place; only a hashbang without an end is left as it is.
   */
  method PrefixSource(src: string, file: string, dir: string) returns (out: string, ghost at: nat, ghost lead: string)
    ensures HeaderEnd(src) == -1 ==> out == src
    ensures HeaderEnd(src) != -1 ==> at <= |src| && out == src[..at] + lead + Insert(file, dir) + src[at..]
    ensures HeaderEnd(src) != -1 ==> exists ds, mid: nat :: 0 <= HeaderEnd(src) && Placed(src, HeaderEnd(src), at, lead, ds, mid)
    ensures HeaderEnd(src) != -1 ==> 0 <= HeaderEnd(src) <= at <= |out| && StartsWell(src, out, HeaderEnd(src), at, lead)
    ensures HeaderEnd(src) != -1 ==> forall k :: 0 <= k < |src| ==> KeepsLine(src, out, at, |lead + Insert(file, dir)|, k)
  {
    at, lead := 0, "";
    var i := HeaderOf(src);
    if i < 0 { return src, 0, ""; }
    var place, before := PrefixPlace(src, i);
    at, lead := place, before;
    out := src[..place] + before + Insert(file, dir) + src[place..];
    ghost var ds, mid: nat :| Placed(src, i, at, lead, ds, mid);
    StartsInCodeIff(src, out, i, at, lead, file, dir, ds, mid);
    InsertBreaks(file, dir, '\n');
    PrefixLines(src, out, at, lead, Insert(file, dir));
  }
}
