/**
 * The streaming tokenizer of Tokenizer.h (basic_tokenizer<char> and its
 * input iterator).
 *
 * The input stream is a character sequence with a cursor and the stream's
 * good/fail state; get() and putback() keep their istream meaning. The
 * iterator's operator++ is the method Advance, proved against the
 * functional scanner Next; iterating Next from a position gives the
 * lexemes (token spans with their line) that the iterator delivers.
 */
module Tokenizer {
  import opened CharClass
  import opened Pairs

  /** Tokenizer::value_type: the token text with its line number. */
  type Token = TextLine

  /** What get() stores into a char once the stream fails: EOF converted to char. */
  const EofChar: char := 255 as char

  /** iterator::is_start_comment. */
  predicate IsStartComment(c: char) {
    c == ';' || c == '#'
  }

  /** iterator::is_start: the extra start set is never consulted. */
  predicate IsStart(c: char) {
    c == '_' || IsAlpha(c)
  }

  /** iterator::is_follow: underscore, letter, digit or a member of the follow set. */
  predicate IsFollow(c: char, follow: string) {
    c == '_' || IsAlnum(c) || c in follow
  }

  predicate IsStartOrFollow(c: char, follow: string) {
    IsStart(c) || IsFollow(c, follow)
  }

  /**
   * How the character classes relate: every start character is a follow
   * character, a digit follows but never starts a token, and neither a
   * comment character, '\n' nor EOF ever starts one.
   */
  lemma CharacterClasses(c: char, follow: string)
    ensures IsStart(c) ==> IsFollow(c, follow) && IsStartOrFollow(c, follow)
    ensures IsDigit(c) ==> !IsStart(c) && IsFollow(c, follow)
    ensures IsStartComment(c) ==> !IsStart(c) && (IsStartOrFollow(c, follow) <==> c in follow)
    ensures !IsStart('\n') && !IsStart(EofChar)
    ensures IsStartOrFollow(c, follow) <==> IsFollow(c, follow)
  {
  }

  /** The tokenizer settings the iterator reads while it scans. */
  datatype Config = Config(skipComments: bool, lowercase: bool, follow: string)

  // ---------------------------------------------------------------------
  // The scanner as functions

  /** The index of the first '\n' at or after i, or |text| when there is none. */
  function NewlineFrom(text: string, i: nat): (k: nat)
    requires i <= |text|
    ensures i <= k <= |text|
    ensures k < |text| ==> text[k] == '\n'
    ensures forall j :: i <= j < k ==> text[j] != '\n'
    decreases |text| - i
  {
    if i == |text| || text[i] == '\n' then i else NewlineFrom(text, i + 1)
  }

  /** The number of '\n' characters in text[i..j]. */
  function Newlines(text: string, i: nat, j: nat): nat
    requires i <= j <= |text|
    decreases j - i
  {
    if i == j then 0 else Newlines(text, i, j - 1) + (if text[j - 1] == '\n' then 1 else 0)
  }

  /** Where the skipping loop of operator++ stops and the line it has counted to. */
  datatype Skipped = Skipped(pos: nat, line: int, found: bool)

  /**
   * The first loop of operator++: skip characters up to a start character.
   * A comment character, when comments are skipped, discards the input up to
   * and including the next '\n'; every '\n' consumed counts a line. The
   * result says where the start character is (found), or that the input ran
   * out (pos == |text|).
   */
  function SkipToStart(text: string, pos: nat, line: int, skipComments: bool): (r: Skipped)
    requires pos <= |text|
    ensures pos <= r.pos <= |text|
    ensures r.found ==> r.pos < |text| && IsStart(text[r.pos])
    ensures !r.found ==> r.pos == |text|
    ensures r.line == line + Newlines(text, pos, r.pos)
    decreases |text| - pos
  {
    if pos == |text| then Skipped(pos, line, false)
    else if IsStart(text[pos]) then Skipped(pos, line, true)
    else if IsStartComment(text[pos]) && skipComments then
      var k := NewlineFrom(text, pos + 1);
      if k == |text| then
        NewlinesNone(text, pos, |text|);
        Skipped(|text|, line, false)
      else
        var r := SkipToStart(text, k + 1, line + 1, skipComments);
        NewlinesNone(text, pos, k);
        NewlinesSplit(text, pos, k + 1, r.pos);
        r
    else
      var r := SkipToStart(text, pos + 1, line + (if text[pos] == '\n' then 1 else 0), skipComments);
      NewlinesSplit(text, pos, pos + 1, r.pos);
      r
  }

  /** The end of the run of start-or-follow characters that begins at i. */
  function RunEnd(text: string, i: nat, follow: string): (e: nat)
    requires i <= |text|
    ensures i <= e <= |text|
    ensures forall j :: i <= j < e ==> IsStartOrFollow(text[j], follow)
    ensures e < |text| ==> !IsStartOrFollow(text[e], follow)
    decreases |text| - i
  {
    if i == |text| || !IsStartOrFollow(text[i], follow) then i else RunEnd(text, i + 1, follow)
  }

  /** A delivered token as a span of the input and the line it was found on. */
  datatype Lexeme = Lexeme(start: nat, end: nat, line: int)

  /** The outcome of one operator++: a token, or the end iterator. */
  datatype Step = Found(lexeme: Lexeme) | Exhausted(line: int)

  /**
   * A span is a maximal token: it starts with a start character, holds only
   * start-or-follow characters, and is followed by a character that is
   * neither (so it never reaches the end of the input).
   */
  ghost predicate IsMaximalToken(text: string, lex: Lexeme, follow: string) {
    && lex.start < lex.end < |text|
    && IsStart(text[lex.start])
    && (forall j :: lex.start <= j < lex.end ==> IsStartOrFollow(text[j], follow))
    && !IsStartOrFollow(text[lex.end], follow)
  }

  /**
   * Everything operator++ skips between a and b without making a token: a
   * start character is skipped only inside a comment, that is after a
   * comment character with no '\n' in between, and only when comments are
   * skipped.
   */
  ghost predicate SkippedGap(text: string, a: nat, b: nat, skipComments: bool)
    requires a <= b <= |text|
  {
    forall q :: a <= q < b && IsStart(text[q]) ==>
      skipComments && exists c :: a <= c < q && IsStartComment(text[c]) && Newlines(text, c, q) == 0
  }

  /**
   * One advance of the iterator from a good stream at pos: skip to a start
   * character, take the longest run of start-or-follow characters, and
   * deliver it unless the run reaches the end of the input, in which case the
   * stream has failed and the iterator becomes the end iterator.
   */
  function Next(text: string, pos: nat, line: int, skipComments: bool, follow: string): (r: Step)
    requires pos <= |text|
    ensures r.Found? ==> pos <= r.lexeme.start && IsMaximalToken(text, r.lexeme, follow)
    ensures r.Found? ==> r.lexeme.line == line + Newlines(text, pos, r.lexeme.start)
  {
    var sk := SkipToStart(text, pos, line, skipComments);
    if !sk.found then Exhausted(sk.line)
    else
      var e := RunEnd(text, sk.pos, follow);
      if e == |text| then Exhausted(sk.line) else Found(Lexeme(sk.pos, e, sk.line))
  }

  /** The lexemes an iterator delivers from a good stream at pos with line counter line. */
  function LexemesFrom(text: string, pos: nat, line: int, skipComments: bool, follow: string): (ls: seq<Lexeme>)
    requires pos <= |text|
    ensures forall i :: 0 <= i < |ls| ==> pos <= ls[i].start && IsMaximalToken(text, ls[i], follow)
    ensures forall i :: 0 < i < |ls| ==> ls[i - 1].end < ls[i].start
    decreases |text| - pos
  {
    match Next(text, pos, line, skipComments, follow)
    case Exhausted(_) => []
    case Found(lex) => [lex] + LexemesFrom(text, lex.end, lex.line, skipComments, follow)
  }

  /** The token text operator* yields for a span: tolower applied when lowercase is set. */
  function Fold(s: string, lowercase: bool): (r: string)
    ensures |r| == |s|
    ensures !lowercase ==> r == s
    ensures lowercase ==> r == LowerString(s)
  {
    if lowercase then LowerString(s) else s
  }

  function TokenOf(text: string, lex: Lexeme, lowercase: bool): Token
    requires lex.start <= lex.end <= |text|
  {
    Pair(Fold(text[lex.start..lex.end], lowercase), lex.line)
  }

  /** The (text, line) pairs an iterator delivers from a good stream at pos. */
  function TokensFrom(text: string, pos: nat, line: int, cfg: Config): seq<Token>
    requires pos <= |text|
    decreases |text| - pos
  {
    match Next(text, pos, line, cfg.skipComments, cfg.follow)
    case Exhausted(_) => []
    case Found(lex) => [TokenOf(text, lex, cfg.lowercase)] + TokensFrom(text, lex.end, lex.line, cfg)
  }

  /** Everything a tokenizer over text delivers: begin() starts at the first character on line 1. */
  function Tokenize(text: string, cfg: Config): seq<Token> {
    TokensFrom(text, 0, 1, cfg)
  }

  // ---------------------------------------------------------------------
  // Helper facts about counting newlines

  lemma {:induction false} NewlinesSplit(text: string, i: nat, j: nat, k: nat)
    requires i <= j <= k <= |text|
    ensures Newlines(text, i, k) == Newlines(text, i, j) + Newlines(text, j, k)
    decreases k - j
  {
    if k > j {
      NewlinesSplit(text, i, j, k - 1);
    }
  }

  lemma {:induction false} NewlinesNone(text: string, i: nat, j: nat)
    requires i <= j <= |text|
    requires forall q :: i <= q < j ==> text[q] != '\n'
    ensures Newlines(text, i, j) == 0
    decreases j - i
  {
    if j > i {
      NewlinesNone(text, i, j - 1);
    }
  }

  lemma {:induction false} NewlinesZero(text: string, i: nat, j: nat, q: nat)
    requires i <= q < j <= |text|
    requires Newlines(text, i, j) == 0
    ensures text[q] != '\n' && Newlines(text, i, q) == 0 && Newlines(text, q, j) == 0
    decreases j - i
  {
    NewlinesSplit(text, i, q, j);
    NewlinesSplit(text, q, q + 1, j);
  }

  // ---------------------------------------------------------------------
  // Properties of the scanner

  /** ts holds, index by index, the folded span and line of each lexeme in ls. */
  predicate TokensMatch(text: string, ls: seq<Lexeme>, ts: seq<Token>, lowercase: bool) {
    && |ts| == |ls|
    && forall i :: 0 <= i < |ls| ==>
         ls[i].start <= ls[i].end <= |text| && ts[i] == TokenOf(text, ls[i], lowercase)
  }

  /** Prepending a lexeme and its token keeps the match. */
  lemma TokensMatchCons(text: string, l: Lexeme, ls: seq<Lexeme>, ts: seq<Token>, lowercase: bool)
    requires l.start <= l.end <= |text| && TokensMatch(text, ls, ts, lowercase)
    ensures TokensMatch(text, [l] + ls, [TokenOf(text, l, lowercase)] + ts, lowercase)
  {
    var ls', ts' := [l] + ls, [TokenOf(text, l, lowercase)] + ts;
    forall i | 0 < i < |ls'|
      ensures ls'[i].start <= ls'[i].end <= |text| && ts'[i] == TokenOf(text, ls'[i], lowercase)
    {
      assert ls'[i] == ls[i - 1] && ts'[i] == ts[i - 1];
    }
  }

  /** The tokens are the lexemes' spans, folded, each with its line number. */
  lemma {:induction false} TokensFromLexemes(text: string, pos: nat, line: int, cfg: Config)
    requires pos <= |text|
    ensures TokensMatch(text, LexemesFrom(text, pos, line, cfg.skipComments, cfg.follow),
                        TokensFrom(text, pos, line, cfg), cfg.lowercase)
    decreases |text| - pos
  {
    match Next(text, pos, line, cfg.skipComments, cfg.follow)
    case Exhausted(_) =>
    case Found(lex) =>
      TokensFromLexemes(text, lex.end, lex.line, cfg);
      TokensMatchCons(text, lex, LexemesFrom(text, lex.end, lex.line, cfg.skipComments, cfg.follow),
                      TokensFrom(text, lex.end, lex.line, cfg), cfg.lowercase);
  }

  /**
   * Every delivered token is non-empty, begins with '_' or a letter, and the
   * rest is made of '_', letters, digits and follow-set characters, with or
   * without case folding.
   */
  lemma TokenCharacters(text: string, cfg: Config)
    ensures var ts := Tokenize(text, cfg);
      forall i :: 0 <= i < |ts| ==>
        |ts[i].first| > 0 && IsStart(ts[i].first[0])
        && forall j :: 0 <= j < |ts[i].first| ==> IsStartOrFollow(ts[i].first[j], cfg.follow)
  {
    var ls := LexemesFrom(text, 0, 1, cfg.skipComments, cfg.follow);
    var ts := Tokenize(text, cfg);
    TokensFromLexemes(text, 0, 1, cfg);
    forall i | 0 <= i < |ts|
      ensures |ts[i].first| > 0 && IsStart(ts[i].first[0])
      ensures forall j :: 0 <= j < |ts[i].first| ==> IsStartOrFollow(ts[i].first[j], cfg.follow)
    {
      var raw := text[ls[i].start..ls[i].end];
      assert ts[i].first == Fold(raw, cfg.lowercase);
      assert IsMaximalToken(text, ls[i], cfg.follow);
      forall j | 0 <= j < |raw|
        ensures IsStartOrFollow(Fold(raw, cfg.lowercase)[j], cfg.follow)
        ensures j == 0 ==> IsStart(Fold(raw, cfg.lowercase)[j])
      {
        FoldKeepsClass(raw[j], cfg.follow);
      }
    }
  }

  /** tolower keeps a start character a start character, and a follow character a start or follow character. */
  lemma FoldKeepsClass(c: char, follow: string)
    ensures IsStart(c) ==> IsStart(ToLower(c))
    ensures IsStartOrFollow(c, follow) ==> IsStartOrFollow(ToLower(c), follow)
  {
  }

  /** The skip loop passes over start characters only inside comments. */
  lemma {:induction false} SkipToStartGap(text: string, pos: nat, line: int, skipComments: bool)
    requires pos <= |text|
    ensures SkippedGap(text, pos, SkipToStart(text, pos, line, skipComments).pos, skipComments)
    decreases |text| - pos
  {
    var r := SkipToStart(text, pos, line, skipComments);
    if pos == |text| || IsStart(text[pos]) {
    } else if IsStartComment(text[pos]) && skipComments {
      var k := NewlineFrom(text, pos + 1);
      if k < |text| {
        SkipToStartGap(text, k + 1, line + 1, skipComments);
      }
      forall q | pos <= q < r.pos && IsStart(text[q])
        ensures skipComments && exists c :: pos <= c < q && IsStartComment(text[c]) && Newlines(text, c, q) == 0
      {
        if q <= k {
          NewlinesNone(text, pos, q);
          assert IsStartComment(text[pos]) && Newlines(text, pos, q) == 0;
        } else {
          var c :| k + 1 <= c < q && IsStartComment(text[c]) && Newlines(text, c, q) == 0;
        }
      }
    } else {
      var l' := line + (if text[pos] == '\n' then 1 else 0);
      SkipToStartGap(text, pos + 1, l', skipComments);
      forall q | pos <= q < r.pos && IsStart(text[q])
        ensures skipComments && exists c :: pos <= c < q && IsStartComment(text[c]) && Newlines(text, c, q) == 0
      {
        var c :| pos + 1 <= c < q && IsStartComment(text[c]) && Newlines(text, c, q) == 0;
      }
    }
  }

  /**
   * What lies between the delivered tokens: before the first token and
   * between any two, the scanner met start characters only inside comments.
   * With comments not skipped, this says every start character outside the
   * tokens is gone, so the tokens are all the maximal runs there are.
   */
  lemma {:induction false} GapsBetweenTokens(text: string, pos: nat, line: int, skipComments: bool, follow: string)
    requires pos <= |text|
    ensures var ls := LexemesFrom(text, pos, line, skipComments, follow);
      && (|ls| > 0 ==> SkippedGap(text, pos, ls[0].start, skipComments))
      && (forall i :: 0 < i < |ls| ==> SkippedGap(text, ls[i - 1].end, ls[i].start, skipComments))
    decreases |text| - pos
  {
    var ls := LexemesFrom(text, pos, line, skipComments, follow);
    SkipToStartGap(text, pos, line, skipComments);
    match Next(text, pos, line, skipComments, follow)
    case Exhausted(_) =>
    case Found(lex) =>
      GapsBetweenTokens(text, lex.end, lex.line, skipComments, follow);
      var rest := LexemesFrom(text, lex.end, lex.line, skipComments, follow);
      assert ls == [lex] + rest;
      forall i | 0 < i < |ls|
        ensures SkippedGap(text, ls[i - 1].end, ls[i].start, skipComments)
      {
        if i == 1 {
          assert ls[i] == rest[0];
        } else {
          assert ls[i - 1] == rest[i - 2] && ls[i] == rest[i - 1];
        }
      }
  }

  /**
   * The end of input: when Next delivers nothing, the scanner either met no
   * start character outside comments, or met one whose run reaches the end
   * of the input, so that final token is never delivered.
   */
  lemma ExhaustedTail(text: string, pos: nat, line: int, skipComments: bool, follow: string)
    requires pos <= |text|
    requires Next(text, pos, line, skipComments, follow).Exhausted?
    ensures SkippedGap(text, pos, |text|, skipComments)
      || exists q :: pos <= q < |text| && SkippedGap(text, pos, q, skipComments)
           && IsStart(text[q]) && RunEnd(text, q, follow) == |text|
  {
    SkipToStartGap(text, pos, line, skipComments);
  }

  /** Each span's line is line plus the '\n' characters from pos up to the span's first character. */
  ghost predicate LinesCounted(text: string, pos: nat, line: int, ls: seq<Lexeme>) {
    forall i :: 0 <= i < |ls| && pos <= ls[i].start <= |text| ==> ls[i].line == line + Newlines(text, pos, ls[i].start)
  }

  /**
   * A token's line number is the starting line plus the '\n' characters
   * consumed before its first character, those ending skipped comments
   * included (tokens themselves hold no '\n' unless it is in the follow set).
   */
  lemma {:induction false} TokenLines(text: string, pos: nat, line: int, skipComments: bool, follow: string)
    requires pos <= |text|
    requires '\n' !in follow
    ensures LinesCounted(text, pos, line, LexemesFrom(text, pos, line, skipComments, follow))
    decreases |text| - pos
  {
    var ls := LexemesFrom(text, pos, line, skipComments, follow);
    match Next(text, pos, line, skipComments, follow)
    case Exhausted(_) =>
    case Found(lex) =>
      TokenLines(text, lex.end, lex.line, skipComments, follow);
      var rest := LexemesFrom(text, lex.end, lex.line, skipComments, follow);
      assert ls == [lex] + rest;
      TokenHasNoNewline(text, lex, follow);
      forall i | 0 <= i < |ls|
        ensures ls[i].line == line + Newlines(text, pos, ls[i].start)
      {
        if i > 0 {
          assert ls[i] == rest[i - 1];
          LinesAcrossToken(text, pos, line, lex, ls[i].start, ls[i].line);
        }
      }
  }

  /** A token holds no '\n' when the follow set has none. */
  lemma TokenHasNoNewline(text: string, lex: Lexeme, follow: string)
    requires IsMaximalToken(text, lex, follow) && '\n' !in follow
    ensures Newlines(text, lex.start, lex.end) == 0
  {
    forall j | lex.start <= j < lex.end
      ensures text[j] != '\n'
    {
      assert IsStartOrFollow(text[j], follow);
    }
    NewlinesNone(text, lex.start, lex.end);
  }

  /** Counting lines from the end of a token without '\n' continues the count from pos. */
  lemma LinesAcrossToken(text: string, pos: nat, line: int, lex: Lexeme, q: nat, lq: int)
    requires pos <= lex.start <= lex.end <= q <= |text|
    requires lex.line == line + Newlines(text, pos, lex.start)
    requires Newlines(text, lex.start, lex.end) == 0
    requires lq == lex.line + Newlines(text, lex.end, q)
    ensures lq == line + Newlines(text, pos, q)
  {
    NewlinesSplit(text, pos, lex.start, lex.end);
    NewlinesSplit(text, pos, lex.end, q);
  }


  /** Case folding changes only the token text, which becomes the lower-case image; lines stay. */
  lemma LowercaseFolds(text: string, pos: nat, line: int, skipComments: bool, follow: string)
    requires pos <= |text|
    ensures var plain := TokensFrom(text, pos, line, Config(skipComments, false, follow));
      var folded := TokensFrom(text, pos, line, Config(skipComments, true, follow));
      |folded| == |plain|
      && forall i :: 0 <= i < |plain| ==>
           folded[i].first == LowerString(plain[i].first) && folded[i].second == plain[i].second
  {
    TokensFromLexemes(text, pos, line, Config(skipComments, false, follow));
    TokensFromLexemes(text, pos, line, Config(skipComments, true, follow));
  }

  /**
   * With comments skipped, a comment character met outside a token discards
   * the input up to and including the next '\n', which still counts a line.
   */
  lemma CommentSkipsToNewline(text: string, pos: nat, line: int, follow: string)
    requires pos < |text| && IsStartComment(text[pos])
    ensures var k := NewlineFrom(text, pos + 1);
      Next(text, pos, line, true, follow) ==
        if k == |text| then Exhausted(line) else Next(text, k + 1, line + 1, true, follow)
  {
  }

  /** With comments not skipped, ';' and '#' are skipped like any other non-start character. */
  lemma CommentCharactersOrdinary(text: string, pos: nat, line: int, follow: string)
    requires pos < |text| && IsStartComment(text[pos])
    ensures Next(text, pos, line, false, follow) == Next(text, pos + 1, line, false, follow)
  {
  }

  /** From begin(), every token's line number is 1 plus the '\n' characters before it, so at least 1. */
  lemma TokenizeLineNumbers(text: string, cfg: Config)
    requires '\n' !in cfg.follow
    ensures var ts := Tokenize(text, cfg);
      forall i :: 0 <= i < |ts| ==> ts[i].second >= 1
  {
    var ls := LexemesFrom(text, 0, 1, cfg.skipComments, cfg.follow);
    TokensFromLexemes(text, 0, 1, cfg);
    TokenLines(text, 0, 1, cfg.skipComments, cfg.follow);
    forall i | 0 <= i < |ls|
      ensures ls[i].line >= 1
    {
      assert IsMaximalToken(text, ls[i], cfg.follow);
    }
  }

  /** The scan of a text opening with a comment line, one operator++ at a time. */
  lemma CommentLineSteps()
    ensures Next("; comment\nfoo\n", 0, 1, true, "") == Found(Lexeme(10, 13, 2))
    ensures Next("; comment\nfoo\n", 13, 2, true, "") == Exhausted(3)
  {
    var text := "; comment\nfoo\n";
    assert text[9] == '\n' && forall j :: 1 <= j < 9 ==> text[j] != '\n';
    assert NewlineFrom(text, 1) == 9;
    assert SkipToStart(text, 10, 2, true) == Skipped(10, 2, true);
    assert SkipToStart(text, 0, 1, true) == Skipped(10, 2, true);
    assert RunEnd(text, 10, "") == 13;
    assert SkipToStart(text, 13, 2, true) == Skipped(14, 3, false);
  }

  /**
   * With comments skipped, a ';' line is passed over up to its newline, and
   * the token on the next line carries line number 2.
   */
  lemma CommentLineSkipped()
    ensures Tokenize("; comment\nfoo\n", Config(true, false, "")) == [Pair("foo", 2)]
  {
    var text := "; comment\nfoo\n";
    CommentLineSteps();
    assert TokensFrom(text, 13, 2, Config(true, false, "")) == [];
    assert text[10..13] == "foo";
  }

  /**
   * A token that runs to the end of the input is not delivered: the scan
   * stops on a failed read and the iterator becomes the end iterator.
   */
  lemma FinalTokenDropped()
    ensures Tokenize("abc", Config(false, false, "")) == []
    ensures Tokenize("abc\n", Config(false, false, "")) == [Pair("abc", 1)]
  {
    var text := "abc\n";
    assert RunEnd(text, 0, "") == 3;
    assert Next(text, 0, 1, false, "") == Found(Lexeme(0, 3, 1));
    assert Next(text, 3, 1, false, "") == Exhausted(2);
    assert text[0..3] == "abc";
  }

  /**
   * The follow set lets '-' continue a token (as for the names in a
   * filename list), and case folding lowers every letter of it.
   */
  lemma FollowSetJoins()
    ensures Tokenize("A-b\n", Config(false, true, "-.")) == [Pair("a-b", 1)]
  {
    var text := "A-b\n";
    assert RunEnd(text, 3, "-.") == 3;
    assert RunEnd(text, 0, "-.") == 3;
    assert Next(text, 0, 1, false, "-.") == Found(Lexeme(0, 3, 1));
    assert Next(text, 3, 1, false, "-.") == Exhausted(2);
    assert LowerString(text[0..3]) == "a-b";
  }

  /** Without a follow set, '-' ends a token, and the case is kept. */
  lemma DefaultFollowSetSplits()
    ensures Tokenize("A-b\n", Config(false, false, "")) == [Pair("A", 1), Pair("b", 1)]
  {
    var text := "A-b\n";
    var cfg := Config(false, false, "");
    assert RunEnd(text, 0, "") == 1;
    assert Next(text, 0, 1, false, "") == Found(Lexeme(0, 1, 1));
    assert RunEnd(text, 2, "") == 3;
    assert Next(text, 1, 1, false, "") == Found(Lexeme(2, 3, 1));
    assert Next(text, 3, 1, false, "") == Exhausted(2);
    assert TokensFrom(text, 3, 1, cfg) == [];
    assert text[2..3] == "b" && text[0..1] == "A";
    assert TokensFrom(text, 1, 1, cfg) == [Pair("b", 1)];
  }

  /** The first operator++ over a line opening with a number: the digits are skipped. */
  lemma NumberSkipped()
    ensures Next("321 _1 a2 ", 0, 1, false, "") == Found(Lexeme(4, 6, 1))
  {
    var text := "321 _1 a2 ";
    assert SkipToStart(text, 4, 1, false) == Skipped(4, 1, true);
    assert SkipToStart(text, 3, 1, false) == Skipped(4, 1, true);
    assert SkipToStart(text, 2, 1, false) == Skipped(4, 1, true);
    assert SkipToStart(text, 1, 1, false) == Skipped(4, 1, true);
    assert SkipToStart(text, 0, 1, false) == Skipped(4, 1, true);
    assert RunEnd(text, 4, "") == 6;
  }

  /** The scan of a number followed by two tokens that carry digits, one operator++ at a time. */
  lemma DigitsSteps()
    ensures Next("321 _1 a2 ", 0, 1, false, "") == Found(Lexeme(4, 6, 1))
    ensures Next("321 _1 a2 ", 6, 1, false, "") == Found(Lexeme(7, 9, 1))
    ensures Next("321 _1 a2 ", 9, 1, false, "") == Exhausted(1)
  {
    var text := "321 _1 a2 ";
    NumberSkipped();
    assert SkipToStart(text, 6, 1, false) == Skipped(7, 1, true);
    assert RunEnd(text, 7, "") == 9;
    assert SkipToStart(text, 9, 1, false) == Skipped(10, 1, false);
  }

  /**
   * Digits never start a token, but follow a start character: a number is
   * skipped, while '_' or a letter followed by digits is one token.
   */
  lemma DigitsDoNotStart()
    ensures Tokenize("321 _1 a2 ", Config(false, false, "")) == [Pair("_1", 1), Pair("a2", 1)]
  {
    var text := "321 _1 a2 ";
    var cfg := Config(false, false, "");
    DigitsSteps();
    assert TokensFrom(text, 9, 1, cfg) == [];
    assert text[4..6] == "_1" && text[7..9] == "a2";
    assert TokensFrom(text, 6, 1, cfg) == [Pair("a2", 1)];
  }

  // ---------------------------------------------------------------------
  // The stream, the tokenizer and its iterator

  /** An input stream: its characters, the read position, and whether it is still good. */
  class Stream {
    const text: string
    var pos: nat
    var good: bool

    ghost predicate Valid()
      reads this
    {
      pos <= |text|
    }

    constructor (text: string)
      ensures Valid() && this.text == text && pos == 0 && good
    {
      this.text := text;
      pos := 0;
      good := true;
    }

    /** istream::get: the next character, or a failed stream and EofChar. */
    method Get() returns (c: char)
      requires Valid()
      modifies this
      ensures Valid()
      ensures old(good) && old(pos) < |text| ==> c == text[old(pos)] && pos == old(pos) + 1 && good
      ensures !(old(good) && old(pos) < |text|) ==> c == EofChar && pos == old(pos) && !good
    {
      if good && pos < |text| {
        c := text[pos];
        pos := pos + 1;
      } else {
        c := EofChar;
        good := false;
      }
    }

    /** istream::putback of the character just read: a good stream steps back, a failed one stays failed. */
    method PutBack(c: char)
      requires Valid()
      requires good ==> 0 < pos && text[pos - 1] == c
      modifies this
      ensures Valid() && good == old(good)
      ensures pos == if good then old(pos) - 1 else old(pos)
    {
      if good {
        pos := pos - 1;
      }
    }
  }

  /**
   * basic_tokenizer<char>: a stream and the settings its iterators read.
   * m_lowercase is not initialised by the C++ constructor; here it is an
   * explicit constructor argument.
   */
  class BasicTokenizer {
    const stream: Stream
    var skipComments: bool
    var lowercase: bool
    var start: string
    var follow: string

    constructor (stream: Stream, lowercase: bool)
      ensures this.stream == stream && this.lowercase == lowercase
      ensures !skipComments && start == "" && follow == ""
    {
      this.stream := stream;
      this.lowercase := lowercase;
      skipComments := false;
      start := "";
      follow := "";
    }

    /** The settings scanning depends on; the extra start set is not among them. */
    function Settings(): Config
      reads this
    {
      Config(skipComments, lowercase, follow)
    }

    method SetSkipComments(skip: bool)
      modifies this
      ensures skipComments == skip
      ensures lowercase == old(lowercase) && start == old(start) && follow == old(follow)
    {
      skipComments := skip;
    }

    /** add_to_start_set: recorded, but scanning never reads it. */
    method AddToStartSet(chars: string)
      modifies this
      ensures start == old(start) + chars
      ensures Settings() == old(Settings())
    {
      start := start + chars;
    }

    method AddToFollowSet(chars: string)
      modifies this
      ensures follow == old(follow) + chars
      ensures skipComments == old(skipComments) && lowercase == old(lowercase) && start == old(start)
    {
      follow := follow + chars;
    }

    method SetLowercase(lowercase: bool)
      modifies this
      ensures this.lowercase == lowercase
      ensures skipComments == old(skipComments) && start == old(start) && follow == old(follow)
    {
      this.lowercase := lowercase;
    }

    /** begin(): an iterator that has already advanced once, from line 1. */
    method Begin() returns (it: TokenIterator)
      requires stream.Valid()
      modifies stream
      ensures fresh(it) && it.Valid() && it.tokenizer == this
      ensures it.Remaining() == if old(stream.good) then TokensFrom(stream.text, old(stream.pos), 1, Settings()) else []
    {
      it := new TokenIterator.Begin(this);
    }

    /** end(): the iterator with no stream. */
    method End() returns (it: TokenIterator)
      ensures fresh(it) && it.Valid() && it.stream == null && it.Remaining() == []
    {
      it := new TokenIterator.End();
    }
  }

  /** basic_tokenizer::iterator. */
  class TokenIterator {
    /** The stream; null once end of input has been reached. */
    var stream: Stream?
    var tokenizer: BasicTokenizer?
    var token: string
    var line: int

    ghost predicate Valid()
      reads this, stream
    {
      stream != null ==> tokenizer != null && stream == tokenizer.stream && stream.Valid()
    }

    /** The tokens this iterator still delivers, the current one first. */
    ghost function Remaining(): seq<Token>
      reads this, stream, tokenizer
      requires Valid()
    {
      if stream == null then []
      else [Current()] + if stream.good then TokensFrom(stream.text, stream.pos, line, tokenizer.Settings()) else []
    }

    /** The default constructor: the end iterator. */
    constructor End()
      ensures Valid() && stream == null && tokenizer == null && line == 0 && token == ""
    {
      stream := null;
      tokenizer := null;
      token := "";
      line := 0;
    }

    /** The constructor begin() uses: line 1, then one advance. */
    constructor Begin(t: BasicTokenizer)
      requires t.stream.Valid()
      modifies t.stream
      ensures Valid() && tokenizer == t
      ensures Remaining() == if old(t.stream.good) then TokensFrom(t.stream.text, old(t.stream.pos), 1, t.Settings()) else []
    {
      stream := t.stream;
      tokenizer := t;
      token := "";
      line := 1;
      new;
      Advance();
    }

    /** operator*: the current token and its line. */
    function Current(): (p: Token)
      reads this
    {
      Pair(token, line)
    }

    /** operator!=: only the stream pointers are compared. */
    predicate NotEqual(rhs: TokenIterator)
      reads this, rhs
    {
      stream != rhs.stream
    }

    /**
     * The comment loop inside the first loop of operator++: read up to and
     * including the next '\n', or fail at the end of input.
     */
    static method SkipComment(s: Stream) returns (chr: char)
      requires s.Valid() && s.good
      modifies s
      ensures s.Valid()
      ensures var k := NewlineFrom(s.text, old(s.pos));
        if k < |s.text| then s.good && s.pos == k + 1 && chr == '\n'
        else !s.good && s.pos == |s.text| && chr == EofChar
    {
      ghost var k := NewlineFrom(s.text, s.pos);
      ghost var pos0 := s.pos;
      chr := ' ';
      while s.good
        invariant s.Valid()
        invariant chr != '\n' && (!s.good ==> chr == EofChar)
        invariant s.good ==> pos0 <= s.pos <= k
        invariant !s.good ==> s.pos == |s.text| && k == |s.text|
        decreases |s.text| - s.pos + (if s.good then 1 else 0)
      {
        chr := s.Get();
        if chr == '\n' {
          break;
        }
      }
    }

    /**
     * The first loop of operator++ and the putback after it: from a good
     * stream, stop on a start character (left unread) or fail at the end of
     * input, dropping comments when asked and counting '\n' characters.
     */
    static method SkipNonStart(s: Stream, skipComments: bool, line: int) returns (newLine: int)
      requires s.Valid()
      modifies s
      ensures s.Valid()
      ensures !old(s.good) ==> !s.good && s.pos == old(s.pos) && newLine == line
      ensures old(s.good) ==>
        var sk := SkipToStart(s.text, old(s.pos), line, skipComments);
        && newLine == sk.line && s.good == sk.found
        && s.pos == (if sk.found then sk.pos else |s.text|)
    {
      ghost var text, pos0, good0 := s.text, s.pos, s.good;
      ghost var sk := SkipToStart(text, pos0, line, skipComments);
      var chr := ' ';
      newLine := line;
      while s.good
        invariant s.Valid()
        invariant !good0 ==> !s.good && s.pos == pos0 && newLine == line
        invariant good0 && s.good ==> SkipToStart(text, s.pos, newLine, skipComments) == sk
        invariant good0 && !s.good ==> s.pos == |text| && !sk.found && newLine == sk.line
        decreases |text| - s.pos + (if s.good then 1 else 0)
      {
        chr, newLine := SkipStep(s, skipComments, newLine);
        if IsStart(chr) {
          break;
        }
      }
      s.PutBack(chr);
    }

    /**
     * One round of the first loop of operator++: read a character; unless it
     * is a start character, drop the rest of a comment when asked and count
     * a '\n'. The skipping still to do is what it was before the round.
     */
    static method SkipStep(s: Stream, skipComments: bool, line: int) returns (chr: char, newLine: int)
      requires s.Valid() && s.good
      modifies s
      ensures s.Valid()
      ensures s.good ==> old(s.pos) < s.pos
      ensures IsStart(chr) ==>
        && newLine == line && s.good && old(s.pos) < |s.text| && s.pos == old(s.pos) + 1 && s.text[old(s.pos)] == chr
        && SkipToStart(s.text, old(s.pos), line, skipComments) == Skipped(old(s.pos), line, true)
      ensures !IsStart(chr) && s.good ==>
        SkipToStart(s.text, s.pos, newLine, skipComments) == SkipToStart(s.text, old(s.pos), line, skipComments)
      ensures !IsStart(chr) && !s.good ==>
        var sk := SkipToStart(s.text, old(s.pos), line, skipComments);
        s.pos == |s.text| && !sk.found && newLine == sk.line
    {
      newLine := line;
      chr := s.Get();
      if IsStart(chr) {
        return;
      }
      // skip line comments
      if IsStartComment(chr) && skipComments {
        chr := SkipComment(s);
      }
      // count lines
      if chr == '\n' {
        newLine := newLine + 1;
      }
    }

    /**
     * The second loop of operator++ and the putback after it: read the run
     * of start-or-follow characters; the stream stays good only when a
     * character outside the run ends it.
     */
    static method ScanToken(s: Stream, follow: string) returns (token: string)
      requires s.Valid()
      modifies s
      ensures s.Valid()
      ensures !old(s.good) ==> !s.good && s.pos == old(s.pos)
      ensures old(s.good) ==>
        var e := RunEnd(s.text, old(s.pos), follow);
        && s.good == (e < |s.text|)
        && s.pos == e
        && (s.good ==> token == s.text[old(s.pos)..e])
    {
      ghost var text, pos0, good0 := s.text, s.pos, s.good;
      var chr := ' ';
      token := "";
      while s.good
        invariant s.Valid()
        invariant !good0 ==> !s.good && s.pos == pos0
        invariant s.good ==> good0 && pos0 <= s.pos <= RunEnd(text, pos0, follow)
        invariant s.good ==> token == text[pos0..s.pos]
        invariant good0 && !s.good ==> s.pos == |text| && RunEnd(text, pos0, follow) == |text|
        decreases |text| - s.pos + (if s.good then 1 else 0)
      {
        ghost var before := s.pos;
        chr := s.Get();
        if !IsStartOrFollow(chr, follow) {
          break;
        }
        if s.good {
          assert text[pos0..s.pos] == text[pos0..before] + [chr];
        }
        token := token + [chr];
      }
      s.PutBack(chr);
    }

    /**
     * operator++: skip to a start character (dropping comments when asked,
     * counting '\n'), take the longest start-or-follow run, fold it to lower
     * case when asked, and become the end iterator if the stream failed.
     */
    method Advance()
      requires Valid() && stream != null
      modifies this, stream
      ensures Valid() && tokenizer == old(tokenizer)
      ensures var s := old(stream);
        var cfg := tokenizer.Settings();
        var step := if old(s.good) then Next(s.text, old(s.pos), old(line), cfg.skipComments, cfg.follow)
                    else Exhausted(old(line));
        match step
        case Found(lex) =>
          && stream == s && s.good && s.pos == lex.end && line == lex.line
          && token == Fold(s.text[lex.start..lex.end], cfg.lowercase)
        case Exhausted(l) =>
          && stream == null && !s.good && line == l
          && (old(s.good) ==> s.pos == |s.text|)
      ensures Remaining() == old(Remaining())[1..]
    {
      var s := stream;
      var t := tokenizer;
      var ln := SkipNonStart(s, t.skipComments, line);
      var tok := ScanToken(s, t.follow);
      // transform to lowercase
      if t.lowercase {
        tok := LowerString(tok);
      }
      token, line := tok, ln;
      // signal end of input
      if !s.good {
        stream := null;
      }
    }
  }

  /**
   * Comparing with the end iterator tests only the stream pointer, and that
   * tells exactly whether a token is still to be delivered; operator* gives
   * the first of them.
   */
  lemma NotEqualEnd(it: TokenIterator, end: TokenIterator)
    requires it.Valid() && end.stream == null
    ensures it.NotEqual(end) <==> it.Remaining() != []
    ensures it.NotEqual(end) ==> it.Remaining()[0] == it.Current()
  {
  }
}
