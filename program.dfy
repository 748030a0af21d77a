/**
 * The program logic of main.cpp that sits between the tokenizer and the
 * word index: the options record, the keyword filter of read(), the
 * keyword set, and the list of files to process together with the check
 * that rejects names looking like options.
 *
 * File contents are passed in as text; opening files and testing that
 * they exist is not part of this model. The standard algorithms main()
 * runs over token iterators (std::copy, std::remove_copy_if,
 * std::transform) are methods of their own, each specified against the
 * tokens the iterator still has to deliver.
 */
module Program {
  import opened CharClass
  import opened Pairs
  import opened Utility
  import opened Tokenizer
  import opened Index

  /** The program's options. ignorecase is carried but read nowhere. */
  datatype Options = Options(
    frequency: bool,
    ignorecase: bool,
    lowercase: bool,
    reverse: bool,
    summary: bool,
    nameWidth: int)

  /** Options(): every flag off, a name field 20 characters wide. */
  function DefaultOptions(): (o: Options)
    ensures !o.frequency && !o.ignorecase && !o.lowercase && !o.reverse && !o.summary
    ensures o.nameWidth == 20
  {
    Options(false, false, false, false, false, 20)
  }

  // ---------------------------------------------------------------------
  // Keywords and the filter of read()

  /** std::set::count: 1 for a member, 0 otherwise. */
  function Count(c: set<string>, v: string): nat {
    if v in c then 1 else 0
  }

  /** contained_in<Keywords>: true when the collection counts the value at least once. */
  function ContainedIn(c: set<string>, v: string): (r: bool)
    ensures r <==> v in c
  {
    Count(c, v) > 0
  }

  /**
   * remove_copy_if drops the tokens its predicate holds for: contained_in
   * by default, its negation under --reverse.
   */
  predicate Keep(t: Token, keywords: set<string>, reverse: bool) {
    var removed := if reverse then !ContainedIn(keywords, t.first) else ContainedIn(keywords, t.first);
    !removed
  }

  /** The tokens read() passes on to the word index, in input order. */
  function Select(ts: seq<Token>, keywords: set<string>, reverse: bool): seq<Token> {
    if |ts| == 0 then []
    else (if Keep(ts[0], keywords, reverse) then [ts[0]] else []) + Select(ts[1..], keywords, reverse)
  }

  /** The settings read() scans with: default tokenizer, lowercase from the options. */
  function WordConfig(options: Options): Config {
    Config(false, options.lowercase, "")
  }

  /** The tokens read() inserts for a whole input text. */
  function Selected(text: string, options: Options, keywords: set<string>): seq<Token> {
    Select(Tokenize(text, WordConfig(options)), keywords, options.reverse)
  }

  /** Filtering splits over concatenation, so it keeps the tokens' relative order. */
  lemma {:induction false} SelectAppend(a: seq<Token>, b: seq<Token>, keywords: set<string>, reverse: bool)
    ensures Select(a + b, keywords, reverse) == Select(a, keywords, reverse) + Select(b, keywords, reverse)
    decreases |a|
  {
    if |a| == 0 {
      assert a + b == b;
    } else {
      var head := if Keep(a[0], keywords, reverse) then [a[0]] else [];
      assert (a + b)[0] == a[0] && (a + b)[1..] == a[1..] + b;
      assert Select(a + b, keywords, reverse) == head + Select(a[1..] + b, keywords, reverse);
      SelectAppend(a[1..], b, keywords, reverse);
      assert head + (Select(a[1..], keywords, reverse) + Select(b, keywords, reverse))
        == (head + Select(a[1..], keywords, reverse)) + Select(b, keywords, reverse);
    }
  }

  /** A token is passed on exactly when it was read and being a keyword agrees with the reverse flag. */
  lemma {:induction false} SelectMembers(ts: seq<Token>, keywords: set<string>, reverse: bool, t: Token)
    ensures t in Select(ts, keywords, reverse) <==> t in ts && (t.first in keywords <==> reverse)
    decreases |ts|
  {
    if |ts| > 0 {
      SelectMembers(ts[1..], keywords, reverse, t);
      assert ts == [ts[0]] + ts[1..];
    }
  }

  /**
   * Per word, the filter passes on all of its lines or none: all of them
   * for a non-keyword by default, all of them for a keyword under --reverse.
   */
  lemma {:induction false} SelectLines(ts: seq<Token>, keywords: set<string>, reverse: bool, w: string)
    ensures LinesFor(Select(ts, keywords, reverse), w) == if (w in keywords) == reverse then LinesFor(ts, w) else []
    decreases |ts|
  {
    if |ts| > 0 {
      var head := if Keep(ts[0], keywords, reverse) then [ts[0]] else [];
      SelectLines(ts[1..], keywords, reverse, w);
      LinesForAppend(head, Select(ts[1..], keywords, reverse), w);
      assert ts == [ts[0]] + ts[1..];
      LinesForAppend([ts[0]], ts[1..], w);
      assert LinesFor([ts[0]], w) == LinesFor([], w) + if ts[0].first == w then [ts[0].second] else [];
      assert LinesFor([], w) == [];
    }
  }

  /**
   * The effect of read() on one word: its list grows by the lines it occurs
   * on, in input order, when it passes the filter, and not at all otherwise.
   */
  lemma ReadLookup(es: seq<Entry>, text: string, options: Options, keywords: set<string>, w: string)
    requires StrictlySorted(es) && AllNonEmpty(es)
    ensures Lookup(InsertAll(es, Selected(text, options, keywords)), w)
      == Lookup(es, w) + if (w in keywords) == options.reverse then LinesFor(Tokenize(text, WordConfig(options)), w) else []
  {
    InsertAllSpec(es, Selected(text, options, keywords), w);
    SelectLines(Tokenize(text, WordConfig(options)), keywords, options.reverse, w);
  }

  /** Filtering one more token moves it, when kept, from the tokens still to filter to those passed on. */
  lemma SelectStep(sel: seq<Token>, ts: seq<Token>, keywords: set<string>, reverse: bool)
    requires |ts| > 0
    ensures sel + Select(ts, keywords, reverse)
      == (sel + if Keep(ts[0], keywords, reverse) then [ts[0]] else []) + Select(ts[1..], keywords, reverse)
  {
  }

  /** The words of a token sequence, as std::inserter collects them into a set. */
  function TokenTexts(ts: seq<Token>): set<string> {
    if |ts| == 0 then {} else {ts[0].first} + TokenTexts(ts[1..])
  }

  /** A word is in the set exactly when some token has it as its text. */
  lemma {:induction false} TokenTextsMembers(ts: seq<Token>, w: string)
    ensures w in TokenTexts(ts) <==> exists i :: 0 <= i < |ts| && ts[i].first == w
    decreases |ts|
  {
    if |ts| > 0 {
      TokenTextsMembers(ts[1..], w);
      if w in TokenTexts(ts[1..]) {
        var i :| 0 <= i < |ts[1..]| && ts[1..][i].first == w;
        assert ts[i + 1].first == w;
      }
      if exists i :: 0 <= i < |ts| && ts[i].first == w {
        var i :| 0 <= i < |ts| && ts[i].first == w;
        if i > 0 {
          assert ts[1..][i - 1] == ts[i];
        }
      }
    }
  }

  // ---------------------------------------------------------------------
  // The standard algorithms main() runs over token iterators

  /**
   * One step of the algorithms' loops: *first, then ++first. The token
   * read is the first one remaining; it is a copy, so using it after the
   * advance is the same as using it before.
   */
  method TakeToken(first: TokenIterator) returns (value: Token)
    requires first.Valid() && first.stream != null
    modifies first, first.stream
    ensures first.Valid() && first.tokenizer == old(first.tokenizer)
    ensures first.stream == null || first.stream == old(first.stream)
    ensures old(first.Remaining()) == [value] + first.Remaining()
  {
    value := first.Current();
    first.Advance();
  }

  /** std::copy(first, last, std::back_inserter(list)): every token appended, in order. */
  method CopyToBack(first: TokenIterator, last: TokenIterator, list: seq<TextLine>) returns (out: seq<TextLine>)
    requires first.Valid() && last.stream == null
    modifies first, first.stream
    ensures first.stream == null
    ensures out == list + old(first.Remaining())
  {
    out := list;
    ghost var all := list + first.Remaining();
    ghost var s := first.stream;
    while first.NotEqual(last)
      invariant first.Valid() && (first.stream == null || first.stream == s)
      invariant out + first.Remaining() == all
      modifies first, s
      decreases |first.Remaining()|
    {
      out := AppendStep(first, out);
    }
    assert out + [] == out;
  }

  /** One round of std::copy into a back_inserter: *d_first++ = *first, then ++first. */
  method AppendStep(first: TokenIterator, list: seq<TextLine>) returns (out: seq<TextLine>)
    requires first.Valid() && first.stream != null
    modifies first, first.stream
    ensures first.Valid() && (first.stream == null || first.stream == old(first.stream))
    ensures |first.Remaining()| < |old(first.Remaining())|
    ensures out + first.Remaining() == list + old(first.Remaining())
  {
    ghost var rest := first.Remaining();
    var value := TakeToken(first);
    out := list + [value];
    assert out + first.Remaining() == list + rest;
  }

  /** std::copy(first, last, std::inserter(set, set.begin())): every token's text joins the set. */
  method CopyToSet(first: TokenIterator, last: TokenIterator, words: set<string>) returns (out: set<string>)
    requires first.Valid() && last.stream == null
    modifies first, first.stream
    ensures first.stream == null
    ensures out == words + TokenTexts(old(first.Remaining()))
  {
    out := words;
    ghost var all := words + TokenTexts(first.Remaining());
    ghost var s := first.stream;
    while first.NotEqual(last)
      invariant first.Valid() && (first.stream == null || first.stream == s)
      invariant out + TokenTexts(first.Remaining()) == all
      modifies first, s
      decreases |first.Remaining()|
    {
      ghost var rest := first.Remaining();
      var value := TakeToken(first);
      assert rest[0] == value && rest[1..] == first.Remaining();
      out := out + {value.AsFirst()};
    }
  }

  /** The index holds the entries es0 with the tokens sel inserted, one reference per token. */
  ghost predicate Holds(index: WordIndex, es0: seq<Entry>, sel: seq<Token>)
    reads index
  {
    index.entries == InsertAll(es0, sel) && index.references == SumLengths(es0) + |sel|
  }

  /**
   * The body of remove_copy_if for one token: unless the keyword test
   * removes it, *result = value, then ++result.
   */
  method CopyUnlessRemoved(result: InsertIterator, value: Token, keywords: set<string>, reverse: bool,
                           ghost es0: seq<Entry>, ghost sel: seq<Token>)
    returns (out: InsertIterator)
    requires StrictlySorted(es0) && AllNonEmpty(es0)
    requires Holds(result.container, es0, sel)
    modifies result.container
    ensures out == result
    ensures Holds(result.container, es0, sel + if Keep(value, keywords, reverse) then [value] else [])
  {
    out := result;
    InsertAllSpec(es0, sel, "");
    if Keep(value, keywords, reverse) {
      InsertAllSnoc(es0, sel, value);
      out := out.Deref();
      out := out.Assign(value);
      out := out.Increment();
    } else {
      assert sel + [] == sel;
    }
  }

  /**
   * One round of remove_copy_if: the copy of *first is passed to the body
   * above, and first advances. The token moves from those still to read to
   * those inserted when it is kept, and is dropped otherwise.
   */
  method RemoveCopyStep(first: TokenIterator, result: InsertIterator, keywords: set<string>, reverse: bool,
                        ghost es0: seq<Entry>, ghost sel: seq<Token>)
    returns (out: InsertIterator, ghost sel': seq<Token>)
    requires first.Valid() && first.stream != null
    requires StrictlySorted(es0) && AllNonEmpty(es0) && Holds(result.container, es0, sel)
    modifies first, first.stream, result.container
    ensures first.Valid() && (first.stream == null || first.stream == old(first.stream))
    ensures |first.Remaining()| < |old(first.Remaining())|
    ensures out == result && Holds(result.container, es0, sel')
    ensures sel' + Select(first.Remaining(), keywords, reverse) == sel + Select(old(first.Remaining()), keywords, reverse)
  {
    ghost var rest := first.Remaining();
    var value := TakeToken(first);
    ghost var after := first.Remaining();
    assert rest[0] == value && rest[1..] == after;
    SelectStep(sel, rest, keywords, reverse);
    out := CopyUnlessRemoved(result, value, keywords, reverse, es0, sel);
    sel' := sel + if Keep(value, keywords, reverse) then [value] else [];
    assert first.Remaining() == after;
  }

  /**
   * std::remove_copy_if(first, last, result, pred) with the keyword test of
   * read() as pred: every token the test does not remove is assigned to
   * the insert iterator, in input order.
   */
  method RemoveCopyIf(first: TokenIterator, last: TokenIterator, result: InsertIterator, keywords: set<string>, reverse: bool)
    returns (out: InsertIterator)
    requires first.Valid() && last.stream == null && result.container.Valid()
    modifies first, first.stream, result.container
    ensures first.stream == null && out == result && result.container.Valid()
    ensures result.container.entries
      == InsertAll(old(result.container.entries), Select(old(first.Remaining()), keywords, reverse))
    ensures result.container.references
      == old(result.container.references) + |Select(old(first.Remaining()), keywords, reverse)|
  {
    out := result;
    var index := result.container;
    ghost var es0 := index.entries;
    ghost var all := Select(first.Remaining(), keywords, reverse);
    ghost var s := first.stream;
    ghost var sel: seq<Token> := [];
    assert InsertAll(es0, sel) == es0;
    assert Holds(index, es0, sel);
    while first.NotEqual(last)
      invariant first.Valid() && (first.stream == null || first.stream == s)
      invariant sel + Select(first.Remaining(), keywords, reverse) == all
      invariant out == result && Holds(index, es0, sel)
      modifies first, s, index
      decreases |first.Remaining()|
    {
      out, sel := RemoveCopyStep(first, out, keywords, reverse, es0, sel);
    }
    assert sel == all by {
      assert sel + [] == sel;
    }
    HoldsValid(index, es0, sel);
  }

  /** Inserting into sorted entries keeps the index's invariant. */
  lemma HoldsValid(index: WordIndex, es0: seq<Entry>, sel: seq<Token>)
    requires StrictlySorted(es0) && AllNonEmpty(es0) && Holds(index, es0, sel)
    ensures index.Valid()
  {
    InsertAllSpec(es0, sel, "");
  }

  /** std::transform(args, back_inserter(list), to_filename_list_element) into an empty list. */
  method Transform(args: seq<string>) returns (list: seq<TextLine>)
    ensures |list| == |args|
    ensures forall i :: 0 <= i < |args| ==> list[i] == ToFilenameListElement(args[i])
  {
    list := [];
    for i := 0 to |args|
      invariant |list| == i
      invariant forall j :: 0 <= j < i ==> list[j] == ToFilenameListElement(args[j])
    {
      list := list + [ToFilenameListElement(args[i])];
    }
  }

  // ---------------------------------------------------------------------
  // read() and the keyword file

  /**
   * read(is, options, context): tokenizes the input with the lowercase
   * option and copies each token that passes the keyword filter into the
   * word index through wordindex_inserter.
   */
  method Read(text: string, options: Options, keywords: set<string>, index: WordIndex)
    requires index.Valid()
    modifies index
    ensures index.Valid()
    ensures index.entries == InsertAll(old(index.entries), Selected(text, options, keywords))
    ensures index.references == old(index.references) + |Selected(text, options, keywords)|
  {
    var stream := new Stream(text);
    var tokenizer := new BasicTokenizer(stream, options.lowercase);
    tokenizer.SetLowercase(options.lowercase);
    var first := tokenizer.Begin();
    var last := tokenizer.End();
    var result := Inserter(index);
    result := RemoveCopyIf(first, last, result, keywords, options.reverse);
  }

  /**
   * The keyword file read in main(): a tokenizer over it with the default
   * settings, each token's text inserted into the keyword set. The
   * tokenizer's lowercase flag is never set there and is left
   * uninitialised by its constructor, so its value is a parameter here.
   */
  method ReadKeywords(text: string, lowercase: bool, keywords: set<string>) returns (out: set<string>)
    ensures out == keywords + TokenTexts(Tokenize(text, Config(false, lowercase, "")))
  {
    var stream := new Stream(text);
    var tokenizer := new BasicTokenizer(stream, lowercase);
    var first := tokenizer.Begin();
    var last := tokenizer.End();
    out := CopyToSet(first, last, keywords);
  }

  /**
   * Whatever the tokenizer's lowercase flag, a keyword is spelled like an
   * identifier: it begins with '_' or a letter and continues with '_',
   * letters and digits.
   */
  lemma KeywordsAreIdentifiers(text: string, lowercase: bool, w: string)
    requires w in TokenTexts(Tokenize(text, Config(false, lowercase, "")))
    ensures |w| > 0 && IsStart(w[0])
    ensures forall j :: 0 <= j < |w| ==> w[j] == '_' || IsAlnum(w[j])
  {
    var ts := Tokenize(text, Config(false, lowercase, ""));
    TokenTextsMembers(ts, w);
    TokenCharacters(text, Config(false, lowercase, ""));
    var i :| 0 <= i < |ts| && ts[i].first == w;
    assert forall j :: 0 <= j < |w| ==> IsStartOrFollow(w[j], "");
  }

  // ---------------------------------------------------------------------
  // The filename list

  /** to_filename_list_element: a command-line name, with line number 0. */
  function ToFilenameListElement(filename: string): (e: TextLine)
    ensures e.first == filename && e.second == 0
  {
    FromFirst(filename)
  }

  /** std::find_first_of: the first index of s holding a character of chars, |s| (the end) when none does. */
  function FindFirstOf(s: string, chars: string): (i: nat)
    ensures i <= |s|
    ensures i < |s| ==> s[i] in chars
    ensures forall j :: 0 <= j < i ==> s[j] !in chars
  {
    if |s| == 0 then 0
    else if s[0] in chars then 0
    else 1 + FindFirstOf(s[1..], chars)
  }

  /**
   * FilenameConstraint::check: the first match of "+-" must not be at the
   * beginning of the name. For the empty name the end is the beginning, so
   * it is rejected too. A rejected name is reported as a fatal error,
   * which is not part of this model.
   */
  function CheckFilename(name: string): (ok: bool)
    ensures ok <==> |name| > 0 && name[0] != '+' && name[0] != '-'
  {
    FindFirstOf(name, "+-") != 0
  }

  /** The settings of the tokenizer reading the filename list file. */
  function FilenameConfig(lowercase: bool): Config {
    Config(true, lowercase, "-.")
  }

  /** The tokens of the filename list file, when one is given. */
  function ListedFiles(input: Option<string>, lowercase: bool): seq<TextLine> {
    match input
    case None => []
    case Some(text) => Tokenize(text, FilenameConfig(lowercase))
  }

  /**
   * Reading the filename list file: a tokenizer over it with the lowercase
   * option, '-' and '.' added to the follow set and comments skipped,
   * every token appended to the list.
   */
  method ReadFilenames(text: string, lowercase: bool, list: seq<TextLine>) returns (out: seq<TextLine>)
    ensures out == list + Tokenize(text, FilenameConfig(lowercase))
  {
    var stream := new Stream(text);
    var tokenizer := new BasicTokenizer(stream, lowercase);
    tokenizer.SetLowercase(lowercase);
    tokenizer.AddToFollowSet("-.");
    tokenizer.SetSkipComments(true);
    assert tokenizer.follow == "-.";
    var first := tokenizer.Begin();
    var last := tokenizer.End();
    out := CopyToBack(first, last, list);
  }

  /**
   * The filename list of main(): the command-line names, transformed into
   * elements with line 0, followed, when an input file is given, by the
   * names read from that file.
   */
  method BuildFilenameList(args: seq<string>, input: Option<string>, lowercase: bool) returns (list: seq<TextLine>)
    ensures |list| == |args| + |ListedFiles(input, lowercase)|
    ensures forall i :: 0 <= i < |args| ==> list[i] == ToFilenameListElement(args[i])
    ensures list[|args|..] == ListedFiles(input, lowercase)
  {
    list := Transform(args);
    if input.Some? {
      var fromArgs := list;
      list := ReadFilenames(input.value, lowercase, list);
      assert list[..|args|] == fromArgs;
    }
  }

  /**
   * The line number of a list element tells where it came from: 0 for a
   * command-line name, the line within the list file (at least 1) for a
   * name read from the file.
   */
  lemma FilenameListLines(args: seq<string>, input: Option<string>, lowercase: bool, list: seq<TextLine>)
    requires |list| == |args| + |ListedFiles(input, lowercase)|
    requires forall i :: 0 <= i < |args| ==> list[i] == ToFilenameListElement(args[i])
    requires list[|args|..] == ListedFiles(input, lowercase)
    ensures forall i :: 0 <= i < |args| ==> list[i].second == 0
    ensures forall i :: |args| <= i < |list| ==> list[i].second >= 1
  {
    if input.Some? {
      TokenizeLineNumbers(input.value, FilenameConfig(lowercase));
      forall i | |args| <= i < |list|
        ensures list[i].second >= 1
      {
        assert list[i] == list[|args|..][i - |args|];
      }
    }
  }
}
