/**
 Where the next token of a source is by ECMAScript's rules alone (sections 12.2 to 12.4 and B.1.1
 of ECMA-262, 2023, for a script), and when the scanner finds the same one.  A comment that is
 not closed, which no program has, is taken to reach the end of the source.
 */
module SourceTokens {
  import opened SourceScanner
  import opened SourceModes

  /** The space separators of Unicode. */
  const SEPARATORS := {' ', '\U{00A0}', '\U{1680}', '\U{2000}', '\U{2001}', '\U{2002}', '\U{2003}', '\U{2004}', '\U{2005}',
    '\U{2006}', '\U{2007}', '\U{2008}', '\U{2009}', '\U{200A}', '\U{202F}', '\U{205F}', '\U{3000}'}
  const WHITE := SEPARATORS + {'\t', '\U{000B}', '\U{000C}', BOM}

  predicate StartsAt(src: string, i: nat, w: string) { i + |w| <= |src| && src[i..i + |w|] == w }

  /** A comment that the end of its line ends; `-->` begins one only where a line begins. */
  predicate LineCommentAt(src: string, i: nat, broke: bool) {
    StartsAt(src, i, "//") || StartsAt(src, i, "<!--") || (broke && StartsAt(src, i, "-->"))
  }

  /** White space, a line end or a comment starts at `i`; `broke` says whether a line has ended in the trivia before it. */
  predicate GapAt(src: string, i: nat, broke: bool) {
    i < |src| && (src[i] in WHITE || src[i] in TERMINATORS || LineCommentAt(src, i, broke) || StartsAt(src, i, "/*"))
  }

  lemma NotStartsAt(src: string, i: nat, w: string, k: nat)
    requires k < |w| && (i + k >= |src| || src[i + k] != w[k])
    ensures !StartsAt(src, i, w)
  {
    assert i + |w| <= |src| ==> src[i..i + |w|][k] == src[i + k];
  }

  lemma NoGap(src: string, i: nat, broke: bool)
    requires i < |src| && src[i] !in WHITE && src[i] !in TERMINATORS && src[i] != '/' && src[i] != '<'
    requires src[i] != '-' || !StartsAt(src, i, "-->")
    ensures !GapAt(src, i, broke)
  {
    NotStartsAt(src, i, "//", 0);
    NotStartsAt(src, i, "/*", 0);
    NotStartsAt(src, i, "<!--", 0);
    if src[i] != '-' { NotStartsAt(src, i, "-->", 0); }
  }

  /** The first line end at or after `i`, or the end of the source. */
  function TerminatorFrom(src: string, i: nat): nat
    decreases |src| - i
  {
    if i < |src| && src[i] !in TERMINATORS then TerminatorFrom(src, i + 1) else i
  }

  lemma {:induction false} TerminatorFacts(src: string, i: nat)
    requires i <= |src|
    ensures var t := TerminatorFrom(src, i); i <= t <= |src| && (t == |src| || src[t] in TERMINATORS)
    ensures forall k :: i <= k < TerminatorFrom(src, i) ==> src[k] !in TERMINATORS
    ensures i < |src| && src[i] !in TERMINATORS ==> i < TerminatorFrom(src, i)
    decreases |src| - i
  {
    if i < |src| && src[i] !in TERMINATORS { TerminatorFacts(src, i + 1); }
  }

  lemma {:induction false} TerminatorIs(src: string, i: nat, t: nat)
    requires i <= t <= |src| && (t == |src| || src[t] in TERMINATORS) && forall k :: i <= k < t ==> src[k] !in TERMINATORS
    ensures TerminatorFrom(src, i) == t
    decreases t - i
  {
    if i < t { TerminatorIs(src, i + 1, t); }
  }

  function GapEnd(src: string, i: nat, broke: bool): (k: nat)
    requires GapAt(src, i, broke)
    ensures i < k <= |src|
  {
    if src[i] in WHITE || src[i] in TERMINATORS then i + 1
    else if LineCommentAt(src, i, broke) then TerminatorFacts(src, i); TerminatorFrom(src, i)
    else
      CommentEndAfter(src, i + 2);
      if CommentEnd(src, i + 2) == -1 then |src| else CommentEnd(src, i + 2) + 2
  }

  /** A line ends in `src[i..j]`. */
  predicate LineEndsIn(src: string, i: nat, j: nat)
    requires j <= |src|
  {
    exists k :: i <= k < j && src[k] in TERMINATORS
  }

  /** The next token at or after `i`, or the end of the source. */
  function NextToken(src: string, i: nat, broke: bool): (j: nat)
    requires i <= |src|
    ensures i <= j <= |src|
    ensures j == i <==> !GapAt(src, i, broke)
    decreases |src| - i
  {
    if GapAt(src, i, broke) then
      var k := GapEnd(src, i, broke);
      NextToken(src, k, broke || LineEndsIn(src, i, k))
    else i
  }

  /** The next token after a token that ends at `i`; after a header a line begins at once. */
  function TokenAfter(src: string, i: nat): (j: nat)
    requires i <= |src|
    ensures i <= j <= |src|
  {
    NextToken(src, i, 0 < i && src[i - 1] in TERMINATORS)
  }

  // ----- the scanner's token -----

  /** Where the scanner comes to rest: in code, or in a comment at the line feed or the end of the source that ends it. */
  predicate AtRest(src: string, from: nat, i: nat)
    requires from <= i <= |src|
  {
    match Scanned(src, from, i)
    case Code => true
    case InLine => i == |src| || src[i] == '\n'
    case InBlock => i == |src|
    case _ => false
  }

  lemma {:induction false} PieceRests(src: string, from: nat, i: nat)
    requires from <= i <= |src| && AtRest(src, from, i) && TriviaAt(src, i)
    ensures AtRest(src, from, PieceEnd(src, i))
    ensures Scanned(src, from, i) != Code ==> src[i] == '\n'
  {
    if Scanned(src, from, i) == Code {
      PieceModes(src, from, i);
      PieceAtOk(src, i);
    } else {
      assert src[i] == '\n' && PieceEnd(src, i) == i + 1;
      assert Scanned(src, from, i + 1) == Code;
    }
  }

  /** A line comment in which nothing is misread ends where ECMAScript ends it. */
  lemma {:induction false} LineAlike(src: string, from: nat, i: nat)
    requires from <= i && At(src, i, '/') && At(src, i + 1, '/') && Scanned(src, from, i) == Code
    requires LineEndOf(src, i) <= |src| && NoneMisread(src, from, LineEndOf(src, i))
    ensures TerminatorFrom(src, i) == LineEndOf(src, i)
  {
    var end := LineEndOf(src, i);
    LineEndFacts(src, i);
    forall k | i <= k < end ensures src[k] !in TERMINATORS {
      if k >= i + 2 {
        LineModes(src, from, i, k);
        assert !Misread(Scanned(src, from, k), src, k);
      }
    }
    TerminatorIs(src, i, end);
  }

  lemma {:induction false} PieceAlike(src: string, from: nat, i: nat, broke: bool)
    requires from <= i <= |src| && AtRest(src, from, i) && TriviaAt(src, i) && NoneMisread(src, from, PieceEnd(src, i))
    ensures GapAt(src, i, broke) && GapEnd(src, i, broke) == PieceEnd(src, i)
  {
    if src[i] !in SPACES && src[i] !in NEWLINES {
      PieceRests(src, from, i);
      if src[i + 1] == '/' {
        assert StartsAt(src, i, "//");
        LineEndFacts(src, i);
        LineAlike(src, from, i);
      } else {
        assert StartsAt(src, i, "/*") && !LineCommentAt(src, i, broke);
      }
    }
  }

  lemma LineEndsConcat(src: string, i: nat, j: nat, k: nat)
    requires i <= j <= k <= |src|
    ensures LineEndsIn(src, i, k) <==> LineEndsIn(src, i, j) || LineEndsIn(src, j, k)
  {
  }

  /** If nothing is misread in what the scanner skips, ECMAScript skips it too. */
  lemma {:induction false} SkipsAlike(src: string, from: nat, i: nat, broke: bool)
    requires from <= i <= |src| && AtRest(src, from, i) && NoneMisread(src, from, SkipEnd(src, i))
    ensures NextToken(src, i, broke) == NextToken(src, SkipEnd(src, i), broke || LineEndsIn(src, i, SkipEnd(src, i)))
    decreases |src| - i
  {
    if TriviaAt(src, i) {
      var k := PieceEnd(src, i);
      PieceAlike(src, from, i, broke);
      PieceRests(src, from, i);
      SkipsAlike(src, from, k, broke || LineEndsIn(src, i, k));
      LineEndsConcat(src, i, k, SkipEnd(src, i));
    } else {
      assert !LineEndsIn(src, i, i);
    }
  }

  /**
   If nothing is misread in what the scanner skips, it finds the next token exactly if none of
   the white space and comments it does not know stands there.
   */
  lemma {:induction false} SameTokenIff(src: string, from: nat, i: nat, broke: bool)
    requires from <= i <= |src| && AtRest(src, from, i) && NoneMisread(src, from, SkipEnd(src, i))
    ensures NextToken(src, i, broke) == SkipEnd(src, i) <==>
      !GapAt(src, SkipEnd(src, i), broke || LineEndsIn(src, i, SkipEnd(src, i)))
  {
    SkipsAlike(src, from, i, broke);
  }

  // ----- string literals -----

  /** The modes of a literal from `p` to `q`, by one rule: inside it up to the closing quote, and code after. */
  ghost predicate Enclosed(r: Rules, src: string, p: nat, q: nat) {
    && p + 1 < q <= |src| && (src[p] == '\'' || src[p] == '"') && src[q - 1] == src[p] && ModeAt(r, src, p, q) == Code
    && forall k :: p < k < q ==> InLiteral(ModeAt(r, src, p, k))
  }

  /** A string literal of ECMAScript (section 12.9.4 of ECMA-262, 2023), its escapes aside. */
  ghost predicate EcmaLiteral(src: string, p: nat, q: nat) { Enclosed(ECMASCRIPT, src, p, q) }

  /** A line continuation of two characters, which the scanner takes for the end of the line. */
  ghost predicate EscapedCrLf(src: string, p: nat, q: nat)
    requires q <= |src|
  {
    exists k :: p < k < q && ModeAt(ECMASCRIPT, src, p, k).InEscape? && src[k] == '\r' && At(src, k + 1, '\n')
  }

  lemma {:induction false} ModeShift(r: Rules, src: string, from: nat, p: nat, k: nat)
    requires from <= p <= k <= |src| && ModeAt(r, src, from, p) == Code
    ensures ModeAt(r, src, from, k) == ModeAt(r, src, p, k)
    decreases k
  {
    if k > p { ModeShift(r, src, from, p, k - 1); }
  }

  lemma {:induction false} ClosesEncloses(src: string, p: nat, j: nat, q: int, quote: char, k: nat)
    requires p <= j && Closes(src, j, q, quote) && Scanned(src, p, j) == InString(quote) && (quote == '\'' || quote == '"')
    requires j <= k < q
    ensures InLiteral(Scanned(src, p, k))
    decreases |src| - j
  {
    if j < k {
      if src[j] == '\\' {
        Escaped(src, j, q, quote);
        assert Scanned(src, p, j + 1) == InEscape(quote);
        if k > j + 1 { ClosesEncloses(src, p, j + 2, q, quote, k); }
      } else if src[j] == quote || src[j] == '\n' {
        NotInside(src, j, q, quote);
      } else {
        Ordinary(src, j, q, quote);
        ClosesEncloses(src, p, j + 1, q, quote, k);
      }
    }
  }

  lemma {:induction false} EnclosedCloses(src: string, p: nat, j: nat, q: nat, quote: char)
    requires p < j < q <= |src| && src[q - 1] == quote && (quote == '\'' || quote == '"')
    requires Scanned(src, p, j) == InString(quote) && Scanned(src, p, q) == Code
    requires forall k :: p < k < q ==> InLiteral(Scanned(src, p, k))
    ensures Closes(src, j, q, quote)
    decreases q - j
  {
    if src[j] == '\\' {
      assert Scanned(src, p, j + 1) == InEscape(quote) && j + 1 < q;
      assert Scanned(src, p, j + 2) == InString(quote) && j + 2 < q;
      EnclosedCloses(src, p, j + 2, q, quote);
      Escaped(src, j, q, quote);
    } else if src[j] == quote || src[j] == '\n' {
      assert Scanned(src, p, j + 1) == Code && j + 1 == q;
      NotInside(src, j, q, quote);
    } else {
      assert Scanned(src, p, j + 1) == InString(quote) && j + 1 < q;
      EnclosedCloses(src, p, j + 1, q, quote);
      Ordinary(src, j, q, quote);
    }
  }

  /** What the scanner takes for a literal is one by its own rules, and the other way round. */
  lemma {:induction false} ClosedIffEnclosed(src: string, p: nat, q: nat)
    requires p < |src| && (src[p] == '\'' || src[p] == '"')
    ensures EndsAt(src, p, q) <==> Enclosed(SCANNER, src, p, q)
  {
    assert Scanned(src, p, p) == Code && Scanned(src, p, p + 1) == InString(src[p]);
    if EndsAt(src, p, q) {
      StringModes(src, p, p + 1, q, src[p]);
      forall k | p < k < q ensures InLiteral(ModeAt(SCANNER, src, p, k)) { ClosesEncloses(src, p, p + 1, q, src[p], k); }
    }
    if Enclosed(SCANNER, src, p, q) { EnclosedCloses(src, p, p + 1, q, src[p]); }
  }

  /** A literal in which nothing is misread is one by both rules. */
  lemma {:induction false} EnclosedAlike(src: string, p: nat, q: nat)
    requires p <= q <= |src| && NoneMisread(src, p, q)
    ensures Enclosed(SCANNER, src, p, q) <==> EcmaLiteral(src, p, q)
  {
    AgreeIffNoneMisread(src, p, q);
    forall k | p <= k <= q ensures ModeAt(SCANNER, src, p, k) == ModeAt(ECMASCRIPT, src, p, k) {
      assert Scanned(src, p, k) == ModeAt(ECMASCRIPT, src, p, k);
    }
  }

  /** What a carriage return does in a string and after a backslash, by both rules. */
  lemma CarriageReturns(src: string, p: nat, k: nat)
    requires p <= k < |src|
    ensures ModeAt(ECMASCRIPT, src, p, k).InString? && src[k] == '\r' ==> ModeAt(ECMASCRIPT, src, p, k + 1) == Code
    ensures ModeAt(ECMASCRIPT, src, p, k).InEscape? && src[k] == '\r' && At(src, k + 1, '\n') ==>
      ModeAt(ECMASCRIPT, src, p, k + 1).InEscape? && ModeAt(ECMASCRIPT, src, p, k + 2).InString?
    ensures Scanned(src, p, k).InEscape? && src[k] == '\r' && At(src, k + 1, '\n') ==> ModeAt(SCANNER, src, p, k + 2) == Code
  {
    Quoted(SCANNER, src, p, k);
    assert At(src, k + 1, '\n') ==> ModeAt(SCANNER, src, p, k + 2) == After(SCANNER, ModeAt(SCANNER, src, p, k + 1), src, k + 1);
    assert At(src, k + 1, '\n') ==> ModeAt(ECMASCRIPT, src, p, k + 2) == After(ECMASCRIPT, ModeAt(ECMASCRIPT, src, p, k + 1), src, k + 1);
  }

  /** In a literal of ECMAScript the scanner misreads nothing but an escaped CR LF. */
  lemma {:induction false} LiteralMisreads(src: string, p: nat, q: nat, n: nat)
    requires EcmaLiteral(src, p, q) && !EscapedCrLf(src, p, q) && p <= n <= q
    ensures NoneMisread(src, p, n)
    decreases n
  {
    if n > p {
      LiteralMisreads(src, p, q, n - 1);
      AgreeIffNoneMisread(src, p, n - 1);
      assert Scanned(src, p, n - 1) == ModeAt(ECMASCRIPT, src, p, n - 1);
      CarriageReturns(src, p, n - 1);
      assert !Misread(ModeAt(ECMASCRIPT, src, p, n - 1), src, n - 1);
    }
  }

  /** A literal of both rules holds no escaped CR LF. */
  lemma {:induction false} BothLiteral(src: string, p: nat, q: nat, n: nat)
    requires EcmaLiteral(src, p, q) && Enclosed(SCANNER, src, p, q) && p <= n <= q
    ensures NoneMisread(src, p, n)
    decreases n
  {
    if n > p {
      BothLiteral(src, p, q, n - 1);
      AgreeIffNoneMisread(src, p, n - 1);
      assert Scanned(src, p, n - 1) == ModeAt(ECMASCRIPT, src, p, n - 1);
      CarriageReturns(src, p, n - 1);
      assert !Misread(ModeAt(ECMASCRIPT, src, p, n - 1), src, n - 1);
    }
  }

  lemma {:induction false} BothUnescaped(src: string, p: nat, q: nat)
    requires EcmaLiteral(src, p, q) && Enclosed(SCANNER, src, p, q)
    ensures !EscapedCrLf(src, p, q)
  {
    BothLiteral(src, p, q, q);
    AgreeIffNoneMisread(src, p, q);
    forall k | p < k < q && ModeAt(ECMASCRIPT, src, p, k).InEscape? ensures !(src[k] == '\r' && At(src, k + 1, '\n')) {
      assert Scanned(src, p, k) == ModeAt(ECMASCRIPT, src, p, k) && !Misread(Scanned(src, p, k), src, k);
    }
  }

  /** The scanner finds a literal of ECMAScript exactly if it holds no escaped CR LF. */
  lemma {:induction false} LiteralFoundIff(src: string, p: nat, q: nat)
    requires EcmaLiteral(src, p, q)
    ensures EndsAt(src, p, q) <==> !EscapedCrLf(src, p, q)
  {
    ClosedIffEnclosed(src, p, q);
    if Enclosed(SCANNER, src, p, q) { BothUnescaped(src, p, q); }
    if !EscapedCrLf(src, p, q) {
      LiteralMisreads(src, p, q, q);
      EnclosedAlike(src, p, q);
    }
  }
}
