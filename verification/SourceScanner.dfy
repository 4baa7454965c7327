/**
 The two scanners behind the identity prefix (lib/single-thread-facade.js:194-222).  The
 reference is a small grammar of white space, comments and string literals, as pieces of
 text.  The scanners are loops over the source; each is proved to have read whole pieces.

 A character past the end of the source compares unequal to everything, as in the original.
 A line comment is taken to end at a line feed, which is where the scanner ends it.
 */
module SourceScanner {
  // ----- the grammar -----

  const LS := '\U{2028}'
  const PS := '\U{2029}'
  const BOM := '\U{FEFF}'
  const SPACES := {' ', '\t', '\r', '\U{000B}', '\U{000C}', '\U{00A0}', BOM}
  const NEWLINES := {'\n', LS, PS}
  const CONTINUES := {'(', '[', '.', '`', '+', '-', '*', '/', '%', ',', '?', '=', '<', '>', '&', '|', '^', '!'}

  datatype Piece =
    | Space(c: char)
    | Line(text: string)
    | Block(text: string)
    | Unclosed(text: string)

  function TextOf(p: Piece): string { if p.Space? then [p.c] else p.text }

  function Text(ps: seq<Piece>): string {
    if ps == [] then "" else Text(ps[..|ps| - 1]) + TextOf(ps[|ps| - 1])
  }

  predicate At(s: string, i: int, c: char) { 0 <= i < |s| && s[i] == c }

  /** No comment end at or after position `from`. */
  predicate NoEnd(s: string, from: nat) { forall i :: from <= i < |s| - 1 ==> !(s[i] == '*' && s[i + 1] == '/') }

  predicate WellFormed(p: Piece) {
    match p
    case Space(c) => c in SPACES || c in NEWLINES
    case Line(t) => "//" <= t && '\n' !in t
    case Block(t) => "/*" <= t && |t| >= 4 && t[|t| - 2..] == "*/" && NoEnd(t[..|t| - 1], 2)
    case Unclosed(t) => "/*" <= t && NoEnd(t, 2)
  }

  /** White space and comments; an unclosed comment can only come last. */
  ghost predicate Trivia(ps: seq<Piece>) {
    && (forall i :: 0 <= i < |ps| ==> WellFormed(ps[i]))
    && (forall i :: 0 <= i < |ps| - 1 ==> !ps[i].Unclosed?)
    && (forall i :: 0 <= i < |ps| - 1 && ps[i].Line? ==> ps[i + 1] == Space('\n'))
  }

  predicate BreaksLine(p: Piece) {
    match p
    case Space(c) => c in NEWLINES
    case Line(_) => false
    case _ => exists c :: c in NEWLINES && c in p.text
  }

  ghost predicate HasNewline(ps: seq<Piece>) { exists i :: 0 <= i < |ps| && BreaksLine(ps[i]) }

  /** The inside of a string literal quoted with `quote`. */
  predicate Inside(s: string, quote: char) {
    if s == "" then true
    else if s[0] == '\\' then |s| >= 2 && Inside(s[2..], quote)
    else s[0] != quote && s[0] != '\n' && Inside(s[1..], quote)
  }

  /** A complete string literal. */
  predicate IsString(s: string) {
    |s| >= 2 && (s[0] == '\'' || s[0] == '"') && s[|s| - 1] == s[0] && Inside(s[1..|s| - 1], s[0])
  }

  lemma TextPush(ps: seq<Piece>, p: Piece)
    ensures Text(ps + [p]) == Text(ps) + TextOf(p)
  {
  }

  // ----- skipSpaceAndComments -----

  function LineEndOf(src: string, i: nat): nat
    decreases |src| - i
  {
    if i < |src| && src[i] != '\n' then LineEndOf(src, i + 1) else i
  }

  /** The first comment end at or after `from`, or -1. */
  function CommentEnd(src: string, from: nat): int
    decreases |src| - from
  {
    if from >= |src| - 1 then -1
    else if src[from] == '*' && src[from + 1] == '/' then from
    else CommentEnd(src, from + 1)
  }

  lemma {:induction false} CommentEndAfter(src: string, from: nat)
    ensures CommentEnd(src, from) == -1 || from <= CommentEnd(src, from) < |src| - 1
    decreases |src| - from
  {
    if from < |src| - 1 { CommentEndAfter(src, from + 1); }
  }

  lemma {:induction false} LineEndAfter(src: string, i: nat)
    requires i <= |src|
    ensures i <= LineEndOf(src, i) <= |src|
    ensures i < |src| && src[i] != '\n' ==> i < LineEndOf(src, i)
    decreases |src| - i
  {
    if i < |src| && src[i] != '\n' { LineEndAfter(src, i + 1); }
  }

  /** Whether a piece of trivia starts at `i`. */
  predicate TriviaAt(src: string, i: nat) {
    i < |src| && (src[i] in SPACES || src[i] in NEWLINES || (src[i] == '/' && (At(src, i + 1, '/') || At(src, i + 1, '*'))))
  }

  function PieceEnd(src: string, i: nat): (k: nat)
    requires TriviaAt(src, i)
    ensures i < k <= |src|
  {
    if src[i] in SPACES || src[i] in NEWLINES then i + 1
    else if src[i + 1] == '/' then LineEndAfter(src, i); LineEndOf(src, i)
    else
      CommentEndAfter(src, i + 2);
      if CommentEnd(src, i + 2) == -1 then |src| else CommentEnd(src, i + 2) + 2
  }

  /** Whether the piece at `i` ends a line, up to where the comment's end mark begins. */
  predicate PieceBreaks(src: string, i: nat)
    requires TriviaAt(src, i)
  {
    if src[i] in SPACES then false
    else if src[i] in NEWLINES then true
    else if src[i + 1] == '/' then false
    else exists m :: i <= m < PieceEnd(src, i) && src[m] in NEWLINES
  }

  /** Where the trivia at `i` ends, and whether a line ends in it. */
  function SkipEnd(src: string, i: nat): (j: nat)
    requires i <= |src|
    ensures i <= j <= |src| && !TriviaAt(src, j)
    decreases |src| - i
  {
    if TriviaAt(src, i) then SkipEnd(src, PieceEnd(src, i)) else i
  }

  predicate SkipBreaks(src: string, i: nat)
    requires i <= |src|
    decreases |src| - i
  {
    TriviaAt(src, i) && (PieceBreaks(src, i) || SkipBreaks(src, PieceEnd(src, i)))
  }

  /** The end of the line comment at `i`. */
  method LineEnd(src: string, i: nat) returns (j: nat)
    requires At(src, i, '/') && At(src, i + 1, '/')
    ensures j == LineEndOf(src, i)
    ensures i + 2 <= j <= |src| && WellFormed(Line(src[i..j])) && (j == |src| || src[j] == '\n')
  {
    j := i;
    while j < |src| && src[j] != '\n'
      invariant i <= j <= |src| && LineEndOf(src, i) == LineEndOf(src, j)
      invariant forall k :: i <= k < j ==> src[k] != '\n'
      invariant j < i + 2 ==> src[j] == '/'
    {
      j := j + 1;
    }
  }

  /** `src.indexOf('*\/', from)`, as a position or none. */
  method FindEnd(src: string, from: nat) returns (end: int)
    requires from <= |src|
    ensures end == CommentEnd(src, from)
    ensures end == -1 ==> NoEnd(src, from)
    ensures end != -1 ==> from <= end < |src| - 1 && src[end] == '*' && src[end + 1] == '/' && NoEnd(src[..end + 1], from)
  {
    var k := from;
    while k < |src| - 1
      invariant from <= k && CommentEnd(src, from) == CommentEnd(src, k)
      invariant forall i :: from <= i < k && i < |src| - 1 ==> !(src[i] == '*' && src[i + 1] == '/')
    {
      if src[k] == '*' && src[k + 1] == '/' { return k; }
      k := k + 1;
    }
    return -1;
  }

  /** The test for a line break in the body of a comment. */
  method FindBreak(body: string) returns (found: bool)
    ensures found <==> BodyBreaks(body)
  {
    found := false;
    for k := 0 to |body|
      invariant found <==> exists m :: 0 <= m < k && body[m] in NEWLINES
    {
      if body[k] in NEWLINES { found := true; }
    }
  }

  lemma BlockPiece(src: string, i: nat, end: nat)
    requires At(src, i, '/') && At(src, i + 1, '*') && i + 2 <= end < |src| - 1
    requires src[end] == '*' && src[end + 1] == '/' && NoEnd(src[..end + 1], i + 2)
    ensures src[i..end + 2] == src[i..end] + "*/" && WellFormed(Block(src[i..end + 2]))
  {
    var t := src[i..end + 2];
    forall k | 2 <= k < |t| - 2 ensures !(t[k] == '*' && t[k + 1] == '/') {
      assert t[k] == src[..end + 1][i + k] && t[k + 1] == src[..end + 1][i + k + 1];
    }
  }

  /** The comment at `i`, up to where it ends. */
  method BlockEnd(src: string, i: nat) returns (j: nat, ghost p: Piece, sawNewline: bool)
    requires At(src, i, '/') && At(src, i + 1, '*')
    ensures i + 2 <= j <= |src| && TextOf(p) == src[i..j] && WellFormed(p) && (p.Block? || (p.Unclosed? && j == |src|))
    ensures j == PieceEnd(src, i) && sawNewline == PieceBreaks(src, i)
    ensures sawNewline <==> BreaksLine(p)
  {
    var end := FindEnd(src, i + 2);
    if end < 0 {
      j, p := |src|, Unclosed(src[i..]);
      sawNewline := FindBreak(src[i..]);
      OpenComment(src, i);
    } else {
      j, p := end + 2, Block(src[i..end + 2]);
      sawNewline := FindBreak(src[i..end]);
      ClosedComment(src, i, end);
    }
  }

  ghost predicate BodyBreaks(body: string) { exists m :: 0 <= m < |body| && body[m] in NEWLINES }

  lemma OpenComment(src: string, i: nat)
    requires At(src, i, '/') && At(src, i + 1, '*') && NoEnd(src, i + 2) && CommentEnd(src, i + 2) == -1
    ensures src[i..] == src[i..|src|] && WellFormed(Unclosed(src[i..])) && PieceEnd(src, i) == |src|
    ensures BodyBreaks(src[i..]) <==> BreaksLine(Unclosed(src[i..]))
    ensures BodyBreaks(src[i..]) <==> PieceBreaks(src, i)
  {
  }

  lemma ClosedComment(src: string, i: nat, end: nat)
    requires At(src, i, '/') && At(src, i + 1, '*') && i + 2 <= end < |src| - 1 && CommentEnd(src, i + 2) == end
    requires src[end] == '*' && src[end + 1] == '/' && NoEnd(src[..end + 1], i + 2)
    ensures WellFormed(Block(src[i..end + 2])) && PieceEnd(src, i) == end + 2
    ensures BodyBreaks(src[i..end]) <==> BreaksLine(Block(src[i..end + 2]))
    ensures BodyBreaks(src[i..end]) <==> PieceBreaks(src, i)
  {
    BlockPiece(src, i, end);
    NewlineInText(src[i..end], src[i..end + 2]);
    BreaksHere(src, i, end, end + 2);
  }

  /** Only the end mark lies between the body of a comment and its end. */
  lemma BreaksHere(src: string, i: nat, bodyEnd: nat, end: nat)
    requires i <= bodyEnd <= end <= |src|
    requires bodyEnd == end || (end == bodyEnd + 2 && src[bodyEnd] == '*' && src[bodyEnd + 1] == '/')
    ensures (exists m :: 0 <= m < |src[i..bodyEnd]| && src[i..bodyEnd][m] in NEWLINES) <==>
      exists m :: i <= m < end && src[m] in NEWLINES
  {
    if m :| 0 <= m < |src[i..bodyEnd]| && src[i..bodyEnd][m] in NEWLINES { assert src[i + m] in NEWLINES; }
    if m :| i <= m < end && src[m] in NEWLINES { assert src[i..bodyEnd][m - i] in NEWLINES; }
  }

  lemma NewlineInText(body: string, text: string)
    requires text == body || text == body + "*/"
    ensures (exists m :: 0 <= m < |body| && body[m] in NEWLINES) <==> exists c :: c in NEWLINES && c in text
  {
  }

  lemma TriviaPush(ps: seq<Piece>, p: Piece)
    requires Trivia(ps) && WellFormed(p) && (ps != [] ==> !ps[|ps| - 1].Unclosed?)
    requires ps != [] && ps[|ps| - 1].Line? ==> p == Space('\n')
    ensures Trivia(ps + [p])
    ensures HasNewline(ps + [p]) <==> HasNewline(ps) || BreaksLine(p)
  {
    var qs := ps + [p];
    assert qs[|ps|] == p && forall i :: 0 <= i < |ps| ==> qs[i] == ps[i];
    if HasNewline(ps) {
      var i :| 0 <= i < |ps| && BreaksLine(ps[i]);
      assert BreaksLine(qs[i]);
    }
  }

  /** One piece of trivia: a character of white space, or a whole comment. */
  method ReadPiece(src: string, j: nat) returns (k: nat, broke: bool, ghost p: Piece)
    requires TriviaAt(src, j)
    ensures k == PieceEnd(src, j) && broke == PieceBreaks(src, j)
    ensures j < k <= |src| && TextOf(p) == src[j..k] && WellFormed(p) && (broke <==> BreaksLine(p))
    ensures p.Unclosed? ==> k == |src|
    ensures p.Line? ==> k == |src| || src[k] == '\n'
    ensures src[j] == '\n' ==> p == Space('\n')
  {
    if src[j] in SPACES {
      return j + 1, false, Space(src[j]);
    } else if src[j] in NEWLINES {
      return j + 1, true, Space(src[j]);
    } else if src[j + 1] == '/' {
      k := LineEnd(src, j);
      return k, false, Line(src[j..k]);
    } else {
      k, p, broke := BlockEnd(src, j);
    }
  }

  /** `src[i..j]` is the trivia `ps`, and what comes next can follow it. */
  ghost predicate Read(src: string, i: nat, j: nat, ps: seq<Piece>) {
    && i <= j <= |src| && src[i..j] == Text(ps) && Trivia(ps)
    && (ps != [] && ps[|ps| - 1].Unclosed? ==> j == |src|)
    && (ps != [] && ps[|ps| - 1].Line? ==> j == |src| || src[j] == '\n')
  }

  lemma ReadOn(src: string, i: nat, j: nat, k: nat, ps: seq<Piece>, p: Piece)
    requires Read(src, i, j, ps) && j < k <= |src| && TextOf(p) == src[j..k] && WellFormed(p)
    requires p.Unclosed? ==> k == |src|
    requires p.Line? ==> k == |src| || src[k] == '\n'
    requires src[j] == '\n' ==> p == Space('\n')
    ensures Read(src, i, k, ps + [p]) && (HasNewline(ps + [p]) <==> HasNewline(ps) || BreaksLine(p))
  {
    var qs := ps + [p];
    assert qs[|qs| - 1] == p;
    assert Trivia(qs) && (HasNewline(qs) <==> HasNewline(ps) || BreaksLine(p)) by { LastTrivia(src, i, j, ps, p); }
    assert src[i..k] == Text(qs) by {
      TextPush(ps, p);
      assert src[i..k] == src[i..j] + src[j..k];
    }
  }

  lemma LastTrivia(src: string, i: nat, j: nat, ps: seq<Piece>, p: Piece)
    requires Read(src, i, j, ps) && j < |src| && WellFormed(p) && (src[j] == '\n' ==> p == Space('\n'))
    ensures Trivia(ps + [p]) && (HasNewline(ps + [p]) <==> HasNewline(ps) || BreaksLine(p))
  {
    TriviaPush(ps, p);
  }

  /** Reads trivia from `i` on, as far as it goes, and says whether a line ends in it. */
  method SkipSpaceAndComments(src: string, i: nat) returns (j: nat, sawNewline: bool, ghost ps: seq<Piece>)
    requires i <= |src|
    ensures j == SkipEnd(src, i) && sawNewline == SkipBreaks(src, i)
    ensures Read(src, i, j, ps) && (sawNewline <==> HasNewline(ps))
  {
    j, sawNewline, ps := i, false, [];
    while TriviaAt(src, j)
      invariant Read(src, i, j, ps)
      invariant sawNewline <==> HasNewline(ps)
      invariant SkipEnd(src, i) == SkipEnd(src, j) && (SkipBreaks(src, i) <==> sawNewline || SkipBreaks(src, j))
      decreases |src| - j
    {
      var k, broke, p := ReadPiece(src, j);
      ReadOn(src, i, j, k, ps, p);
      j, sawNewline, ps := k, sawNewline || broke, ps + [p];
    }
  }

  // ----- stringEnd -----

  /** The rest of a string from `j`, inside it, up to a closing `quote`. */
  ghost predicate Closes(src: string, j: nat, q: int, quote: char) {
    j < q <= |src| && src[q - 1] == quote && Inside(src[j..q - 1], quote)
  }

  lemma Escaped(src: string, j: nat, q: int, quote: char)
    requires At(src, j, '\\') && quote != '\\'
    ensures Closes(src, j, q, quote) <==> Closes(src, j + 2, q, quote)
  {
  }

  lemma Ordinary(src: string, j: nat, q: int, quote: char)
    requires j < |src| && src[j] != '\\' && src[j] != quote && src[j] != '\n'
    ensures Closes(src, j, q, quote) <==> Closes(src, j + 1, q, quote)
  {
  }

  lemma NotInside(src: string, j: nat, q: int, quote: char)
    requires j < |src| && src[j] != '\\' && (src[j] == quote || src[j] == '\n')
    ensures Closes(src, j, q, quote) <==> src[j] == quote && q == j + 1
  {
  }

  /** The literal at `i` ends at `q`. */
  ghost predicate EndsAt(src: string, i: nat, q: int)
    requires i < |src|
  {
    Closes(src, i + 1, q, src[i])
  }

  /** The end of the string literal at `i`, or -1 if none ends before the line does. */
  method StringEnd(src: string, i: nat) returns (end: int)
    requires At(src, i, '\'') || At(src, i, '"')
    ensures end == -1 || EndsAt(src, i, end)
    ensures forall q :: EndsAt(src, i, q) ==> q == end
  {
    var quote := src[i];
    var j := i + 1;
    while j < |src|
      invariant i + 1 <= j
      invariant forall q :: EndsAt(src, i, q) <==> Closes(src, j, q, quote)
      decreases |src| - j
    {
      var next := j + if src[j] == '\\' then 2 else 1;
      if src[j] != '\\' && (src[j] == quote || src[j] == '\n') {
        forall q ensures EndsAt(src, i, q) <==> src[j] == quote && q == next { NotInside(src, j, q, quote); }
        return if src[j] == quote then next else -1;
      }
      forall q ensures Closes(src, j, q, quote) <==> Closes(src, next, q, quote) {
        if src[j] == '\\' { Escaped(src, j, q, quote); } else { Ordinary(src, j, q, quote); }
      }
      j := next;
    }
    return -1;
  }
}
