/**
 What a position of a source is in: code, a comment or a string.  The reference is a reader that
 takes one character after another and knows nothing of the scanners.  It is read by two rules
 for the ends of lines: those of the scanners, and those of ECMAScript (sections 12.3, 12.4 and
 12.9.4 of ECMA-262, 2023).

 Before the place, all that is code is white space, semicolons and the quotes of literals, so the
 comments of a script that begin with `<` or `-` (section B.1.1) need not be read here.
 */
module SourceModes {
  import opened SourceScanner

  datatype Mode =
    | Code
    | LineOpen | InLine                      // between the two slashes of a line comment, and after them
    | BlockOpen | InBlock | BlockClose       // inside the opening mark of a block comment, in it, inside its end mark
    | InString(quote: char) | InEscape(quote: char)

  predicate InComment(m: Mode) { m.LineOpen? || m.InLine? || m.BlockOpen? || m.InBlock? || m.BlockClose? }

  predicate InLiteral(m: Mode) { m.InString? || m.InEscape? }

  /** Which characters end a line comment and break off a string, and whether CR LF is one line end. */
  datatype Rules = Rules(lineEnds: set<char>, stringEnds: set<char>, joined: bool)

  const SCANNER := Rules({'\n'}, {'\n'}, false)
  const TERMINATORS := {'\n', '\r', LS, PS}
  const ECMASCRIPT := Rules(TERMINATORS, {'\n', '\r'}, true)

  /** The mode after the character at `k`. */
  function After(r: Rules, m: Mode, src: string, k: nat): Mode
    requires k < |src|
  {
    var c := src[k];
    match m
    case Code =>
      if c == '/' && At(src, k + 1, '/') then LineOpen
      else if c == '/' && At(src, k + 1, '*') then BlockOpen
      else if c == '\'' || c == '"' then InString(c)
      else Code
    case LineOpen => InLine
    case InLine => if c in r.lineEnds then Code else InLine
    case BlockOpen => InBlock
    case InBlock => if c == '*' && At(src, k + 1, '/') then BlockClose else InBlock
    case BlockClose => Code
    case InString(q) => if c == '\\' then InEscape(q) else if c == q || c in r.stringEnds then Code else InString(q)
    case InEscape(q) => if r.joined && c == '\r' && At(src, k + 1, '\n') then InEscape(q) else InString(q)
  }

  /** The mode of position `n`, for code that starts at `from`. */
  function ModeAt(r: Rules, src: string, from: nat, n: nat): Mode
    requires from <= n <= |src|
    decreases n - from
  {
    if n == from then Code else After(r, ModeAt(r, src, from, n - 1), src, n - 1)
  }

  /** By the scanners' rules. */
  function Scanned(src: string, from: nat, n: nat): Mode
    requires from <= n <= |src|
  {
    ModeAt(SCANNER, src, from, n)
  }

  // ----- the two rules -----

  /** The scanners read the character at `k` otherwise than ECMAScript does. */
  predicate Misread(m: Mode, src: string, k: nat)
    requires k < |src|
  {
    || (m.InLine? && src[k] in {'\r', LS, PS})
    || (m.InString? && src[k] == '\r')
    || (m.InEscape? && src[k] == '\r' && At(src, k + 1, '\n'))
  }

  lemma {:induction false} Quoted(r: Rules, src: string, from: nat, n: nat)
    requires from <= n <= |src|
    ensures var m := ModeAt(r, src, from, n); InLiteral(m) ==> m.quote == '\'' || m.quote == '"'
    decreases n - from
  {
    if n > from { Quoted(r, src, from, n - 1); }
  }

  lemma OneCharacter(m: Mode, src: string, k: nat)
    requires k < |src| && (InLiteral(m) ==> m.quote == '\'' || m.quote == '"')
    ensures After(SCANNER, m, src, k) == After(ECMASCRIPT, m, src, k) <==> !Misread(m, src, k)
  {
  }

  ghost predicate AgreeUpTo(src: string, from: nat, n: nat)
    requires n <= |src|
  {
    forall k :: from <= k <= n ==> Scanned(src, from, k) == ModeAt(ECMASCRIPT, src, from, k)
  }

  ghost predicate NoneMisread(src: string, from: nat, n: nat)
    requires n <= |src|
  {
    forall k :: from <= k < n ==> !Misread(Scanned(src, from, k), src, k)
  }

  /**
   The scanners' rules and ECMAScript's agree on every position up to `n` exactly if no carriage
   return, U+2028 or U+2029 is read in a line comment before it, no carriage return in a string,
   and no escaped CR LF.
   */
  lemma {:induction false} AgreeIffNoneMisread(src: string, from: nat, n: nat)
    requires from <= n <= |src|
    ensures AgreeUpTo(src, from, n) <==> NoneMisread(src, from, n)
    decreases n - from
  {
    if n > from {
      AgreeIffNoneMisread(src, from, n - 1);
      Quoted(SCANNER, src, from, n - 1);
      OneCharacter(Scanned(src, from, n - 1), src, n - 1);
      assert AgreeUpTo(src, from, n) <==>
        AgreeUpTo(src, from, n - 1) && Scanned(src, from, n) == ModeAt(ECMASCRIPT, src, from, n);
      assert NoneMisread(src, from, n) <==>
        NoneMisread(src, from, n - 1) && !Misread(Scanned(src, from, n - 1), src, n - 1);
      assert AgreeUpTo(src, from, n - 1) ==> Scanned(src, from, n - 1) == ModeAt(ECMASCRIPT, src, from, n - 1);
    }
  }

  // ----- pieces of trivia -----

  lemma {:induction false} LineEndFacts(src: string, i: nat)
    requires i <= |src|
    ensures i <= LineEndOf(src, i) <= |src| && (LineEndOf(src, i) == |src| || src[LineEndOf(src, i)] == '\n')
    ensures forall k :: i <= k < LineEndOf(src, i) ==> src[k] != '\n'
    decreases |src| - i
  {
    if i < |src| && src[i] != '\n' { LineEndFacts(src, i + 1); }
  }

  lemma {:induction false} CommentEndFacts(src: string, from: nat)
    ensures var e := CommentEnd(src, from); var last := if e == -1 then |src| - 1 else e;
      && (e != -1 ==> from <= e < |src| - 1 && src[e] == '*' && src[e + 1] == '/')
      && forall k :: from <= k < last ==> !(src[k] == '*' && src[k + 1] == '/')
    decreases |src| - from
  {
    if from < |src| - 1 && !(src[from] == '*' && src[from + 1] == '/') { CommentEndFacts(src, from + 1); }
  }

  /** The piece of trivia at `i`. */
  function PieceAt(src: string, i: nat): Piece
    requires TriviaAt(src, i)
  {
    var text := src[i..PieceEnd(src, i)];
    if src[i] in SPACES || src[i] in NEWLINES then Space(src[i])
    else if src[i + 1] == '/' then Line(text)
    else if CommentEnd(src, i + 2) == -1 then Unclosed(text)
    else Block(text)
  }

  /** The trivia at `i`, as far as it goes. */
  function Pieces(src: string, i: nat): seq<Piece>
    requires i <= |src|
    decreases |src| - i
  {
    if TriviaAt(src, i) then [PieceAt(src, i)] + Pieces(src, PieceEnd(src, i)) else []
  }

  lemma LinePiece(src: string, i: nat)
    requires At(src, i, '/') && At(src, i + 1, '/')
    ensures i + 2 <= LineEndOf(src, i) <= |src| && WellFormed(Line(src[i..LineEndOf(src, i)]))
  {
    LineEndFacts(src, i);
    var end := LineEndOf(src, i);
    assert end >= i + 2;
    assert src[i..end][..2] == "//";
  }

  lemma BlockPieces(src: string, i: nat)
    requires At(src, i, '/') && At(src, i + 1, '*')
    ensures WellFormed(PieceAt(src, i))
  {
    CommentEndFacts(src, i + 2);
    var e := CommentEnd(src, i + 2);
    if e == -1 {
      OpenComment(src, i);
      assert src[i..] == src[i..|src|];
    } else {
      BlockPiece(src, i, e);
    }
  }

  lemma PieceAtOk(src: string, i: nat)
    requires TriviaAt(src, i)
    ensures var p, k := PieceAt(src, i), PieceEnd(src, i);
      && TextOf(p) == src[i..k] && WellFormed(p)
      && (p.Unclosed? ==> k == |src|)
      && (p.Line? ==> k == |src| || src[k] == '\n')
      && (src[i] == '\n' ==> p == Space('\n'))
  {
    if src[i] !in SPACES && src[i] !in NEWLINES {
      if src[i + 1] == '/' {
        LinePiece(src, i);
        LineEndFacts(src, i);
      } else {
        BlockPieces(src, i);
      }
    }
  }

  lemma {:induction false} PieceRead(src: string, i0: nat, i: nat, ps: seq<Piece>)
    requires Read(src, i0, i, ps) && TriviaAt(src, i)
    ensures Read(src, i0, PieceEnd(src, i), ps + [PieceAt(src, i)])
  {
    PieceAtOk(src, i);
    ReadOn(src, i0, i, PieceEnd(src, i), ps, PieceAt(src, i));
  }

  lemma PiecesStep(src: string, i: nat, ps: seq<Piece>)
    requires i <= |src|
    ensures !TriviaAt(src, i) ==> ps + Pieces(src, i) == ps
    ensures TriviaAt(src, i) ==> ps + Pieces(src, i) == (ps + [PieceAt(src, i)]) + Pieces(src, PieceEnd(src, i))
  {
  }

  /** What is skipped is whole pieces of white space and comments. */
  lemma {:induction false} PiecesRead(src: string, i0: nat, i: nat, ps: seq<Piece>)
    requires Read(src, i0, i, ps)
    ensures Read(src, i0, SkipEnd(src, i), ps + Pieces(src, i))
    decreases |src| - i
  {
    PiecesStep(src, i, ps);
    if TriviaAt(src, i) {
      PieceRead(src, i0, i, ps);
      PiecesRead(src, i0, PieceEnd(src, i), ps + [PieceAt(src, i)]);
    }
  }

  lemma {:induction false} SkippedIsPieces(src: string, i: nat)
    requires i <= |src|
    ensures Read(src, i, SkipEnd(src, i), Pieces(src, i))
  {
    PiecesRead(src, i, i, []);
    assert [] + Pieces(src, i) == Pieces(src, i);
  }

  // ----- modes of what the scanners read -----

  lemma {:induction false} LineModes(src: string, from: nat, i: nat, k: nat)
    requires from <= i && At(src, i, '/') && At(src, i + 1, '/') && Scanned(src, from, i) == Code
    requires i + 2 <= k <= LineEndOf(src, i)
    ensures k <= |src| && Scanned(src, from, k) == InLine
    decreases k
  {
    LineEndFacts(src, i);
    if k == i + 2 {
      assert Scanned(src, from, i + 1) == LineOpen;
    } else {
      LineModes(src, from, i, k - 1);
    }
  }

  lemma {:induction false} BlockModes(src: string, from: nat, i: nat, k: nat)
    requires from <= i && At(src, i, '/') && At(src, i + 1, '*') && Scanned(src, from, i) == Code
    requires i + 2 <= k <= |src| && (CommentEnd(src, i + 2) != -1 ==> k <= CommentEnd(src, i + 2))
    ensures Scanned(src, from, k) == InBlock
    decreases k
  {
    CommentEndFacts(src, i + 2);
    if k == i + 2 {
      assert Scanned(src, from, i + 1) == BlockOpen;
    } else {
      BlockModes(src, from, i, k - 1);
    }
  }

  /** The mode after the trivia `ps`. */
  function ModeAfter(ps: seq<Piece>): Mode {
    if ps == [] then Code
    else match ps[|ps| - 1]
      case Line(_) => InLine
      case Unclosed(_) => InBlock
      case _ => Code
  }

  lemma {:induction false} PieceModes(src: string, from: nat, i: nat)
    requires from <= i && TriviaAt(src, i) && Scanned(src, from, i) == Code
    ensures Scanned(src, from, PieceEnd(src, i)) == ModeAfter([PieceAt(src, i)])
  {
    var k := PieceEnd(src, i);
    if src[i] !in SPACES && src[i] !in NEWLINES {
      if src[i + 1] == '/' {
        LinePiece(src, i);
        LineModes(src, from, i, k);
      } else {
        CommentEndFacts(src, i + 2);
        if CommentEnd(src, i + 2) == -1 {
          BlockModes(src, from, i, k);
        } else {
          BlockModes(src, from, i, k - 2);
          assert Scanned(src, from, k - 1) == BlockClose;
        }
      }
    }
  }

  /** A piece read after the trivia `ps`; a line comment is followed by the line feed that ends it. */
  lemma {:induction false} NextPieceModes(src: string, from: nat, i0: nat, i: nat, ps: seq<Piece>)
    requires from <= i && Read(src, i0, i, ps) && TriviaAt(src, i) && Scanned(src, from, i) == ModeAfter(ps)
    ensures Scanned(src, from, PieceEnd(src, i)) == ModeAfter(ps + [PieceAt(src, i)])
  {
    if Scanned(src, from, i) == Code {
      PieceModes(src, from, i);
    } else {
      assert src[i] == '\n' && PieceEnd(src, i) == i + 1;
      assert Scanned(src, from, i + 1) == Code;
    }
  }

  lemma {:induction false} TriviaModes(src: string, from: nat, i0: nat, i: nat, ps: seq<Piece>)
    requires from <= i && Read(src, i0, i, ps) && Scanned(src, from, i) == ModeAfter(ps)
    ensures Scanned(src, from, SkipEnd(src, i)) == ModeAfter(ps + Pieces(src, i))
    decreases |src| - i
  {
    PiecesStep(src, i, ps);
    if TriviaAt(src, i) {
      PieceRead(src, i0, i, ps);
      NextPieceModes(src, from, i0, i, ps);
      TriviaModes(src, from, i0, PieceEnd(src, i), ps + [PieceAt(src, i)]);
    }
  }

  /** Skipping from code ends in code, or at the end of the source in a comment that nothing ends. */
  lemma {:induction false} SkipModes(src: string, from: nat, i: nat)
    requires from <= i <= |src| && Scanned(src, from, i) == Code
    ensures Scanned(src, from, SkipEnd(src, i)) == ModeAfter(Pieces(src, i))
    ensures ModeAfter(Pieces(src, i)) != Code ==> SkipEnd(src, i) == |src|
  {
    TriviaModes(src, from, i, i, []);
    assert [] + Pieces(src, i) == Pieces(src, i);
    SkippedIsPieces(src, i);
  }

  lemma {:induction false} StringModes(src: string, from: nat, j: nat, q: int, quote: char)
    requires from <= j && Closes(src, j, q, quote) && Scanned(src, from, j) == InString(quote) && (quote == '\'' || quote == '"')
    ensures Scanned(src, from, q) == Code
    decreases |src| - j
  {
    if src[j] == '\\' {
      Escaped(src, j, q, quote);
      assert Scanned(src, from, j + 1) == InEscape(quote);
      StringModes(src, from, j + 2, q, quote);
    } else if src[j] == quote || src[j] == '\n' {
      NotInside(src, j, q, quote);
    } else {
      Ordinary(src, j, q, quote);
      StringModes(src, from, j + 1, q, quote);
    }
  }
}
