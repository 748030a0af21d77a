/**
 * The word index of WordIndex.h: a map from word to the list of line
 * numbers it was inserted with, and a running count of insertions.
 *
 * The map is std::map<std::string, std::vector<int>, StringLess>. Its
 * constructor is handed a NoCaseLess object, but the map stores its
 * comparator by value as a StringLess, so only the StringLess part is kept:
 * keys are ordered and told apart by the plain, case-sensitive std::string
 * operator<. The map is modelled as its iteration order: a sequence of
 * entries strictly ascending under StringLess.
 */
module Index {
  import opened CharClass
  import opened Pairs

  // ---------------------------------------------------------------------
  // The comparators

  /** StringLess: std::string operator<, lexicographic by character code, a proper prefix first. */
  predicate StringLess(a: string, b: string) {
    if |a| == 0 then |b| > 0
    else if |b| == 0 then false
    else if a[0] != b[0] then a[0] < b[0]
    else StringLess(a[1..], b[1..])
  }

  /** NoCaseLess::nocase_less. */
  predicate CharNoCaseLess(c1: char, c2: char) {
    ToUpper(c1) < ToUpper(c2)
  }

  /** NoCaseLess: std::lexicographical_compare with nocase_less. */
  predicate NoCaseLess(a: string, b: string) {
    if |b| == 0 then false
    else if |a| == 0 then true
    else if CharNoCaseLess(a[0], b[0]) then true
    else if CharNoCaseLess(b[0], a[0]) then false
    else NoCaseLess(a[1..], b[1..])
  }

  lemma {:induction false} StringLessIrreflexive(a: string)
    ensures !StringLess(a, a)
    decreases |a|
  {
    if |a| > 0 {
      StringLessIrreflexive(a[1..]);
    }
  }

  lemma {:induction false} StringLessTransitive(a: string, b: string, c: string)
    requires StringLess(a, b) && StringLess(b, c)
    ensures StringLess(a, c)
    decreases |a|
  {
    if |a| > 0 && |b| > 0 && |c| > 0 && a[0] == b[0] && b[0] == c[0] {
      StringLessTransitive(a[1..], b[1..], c[1..]);
    }
  }

  /** Two different strings are ordered one way or the other, never both. */
  lemma {:induction false} StringLessTotal(a: string, b: string)
    ensures a != b <==> StringLess(a, b) || StringLess(b, a)
    ensures !(StringLess(a, b) && StringLess(b, a))
    decreases |a|
  {
    if |a| > 0 && |b| > 0 && a[0] == b[0] {
      StringLessTotal(a[1..], b[1..]);
      assert a == [a[0]] + a[1..] && b == [b[0]] + b[1..];
    } else if |a| == 0 && |b| == 0 {
      assert a == b;
    }
  }

  /** NoCaseLess compares the upper-case images of the strings with StringLess. */
  lemma {:induction false} NoCaseLessIsUpperStringLess(a: string, b: string)
    ensures NoCaseLess(a, b) <==> StringLess(UpperString(a), UpperString(b))
    decreases |a|
  {
    if |a| > 0 && |b| > 0 {
      NoCaseLessIsUpperStringLess(a[1..], b[1..]);
      assert UpperString(a)[1..] == UpperString(a[1..]);
      assert UpperString(b)[1..] == UpperString(b[1..]);
    }
  }

  /** NoCaseLess is a strict order: irreflexive and transitive. */
  lemma NoCaseLessStrictOrder(a: string, b: string, c: string)
    ensures !NoCaseLess(a, a)
    ensures NoCaseLess(a, b) && NoCaseLess(b, c) ==> NoCaseLess(a, c)
  {
    NoCaseLessIsUpperStringLess(a, a);
    NoCaseLessIsUpperStringLess(a, b);
    NoCaseLessIsUpperStringLess(b, c);
    NoCaseLessIsUpperStringLess(a, c);
    StringLessIrreflexive(UpperString(a));
    if NoCaseLess(a, b) && NoCaseLess(b, c) {
      StringLessTransitive(UpperString(a), UpperString(b), UpperString(c));
    }
  }

  /**
   * The two comparators disagree on words that differ only in case: NoCaseLess
   * finds "Hello" and "hello" equivalent, StringLess puts the upper-case letter first.
   */
  lemma ComparatorsDisagree()
    ensures !NoCaseLess("Hello", "hello") && !NoCaseLess("hello", "Hello")
    ensures StringLess("Hello", "hello") && !StringLess("hello", "Hello")
  {
    NoCaseLessIsUpperStringLess("Hello", "hello");
    NoCaseLessIsUpperStringLess("hello", "Hello");
    assert UpperString("Hello") == UpperString("hello") == "HELLO";
    StringLessIrreflexive("HELLO");
  }

  // ---------------------------------------------------------------------
  // The map as its sequence of entries

  /** map_type::value_type: a word with its line numbers. */
  datatype Entry = Entry(word: string, lines: seq<int>)

  /** The iteration order of the map: strictly ascending words under the map's comparator. */
  ghost predicate StrictlySorted(es: seq<Entry>) {
    forall i, j :: 0 <= i < j < |es| ==> StringLess(es[i].word, es[j].word)
  }

  /** Every word of es orders after w. */
  ghost predicate AllAbove(w: string, es: seq<Entry>) {
    forall i :: 0 <= i < |es| ==> StringLess(w, es[i].word)
  }

  function Keys(es: seq<Entry>): (ks: set<string>)
    ensures forall i :: 0 <= i < |es| ==> es[i].word in ks
    ensures forall w :: w in ks ==> exists i :: 0 <= i < |es| && es[i].word == w
  {
    if |es| == 0 then {} else {es[0].word} + Keys(es[1..])
  }

  /** The line list stored for w; empty when w is not a key. */
  function Lookup(es: seq<Entry>, w: string): (r: seq<int>)
    ensures w !in Keys(es) ==> r == []
  {
    if |es| == 0 then []
    else if es[0].word == w then es[0].lines
    else Lookup(es[1..], w)
  }

  /** The map the entries stand for. */
  ghost function AsMap(es: seq<Entry>): map<string, seq<int>> {
    map w | w in Keys(es) :: Lookup(es, w)
  }

  function SumLengths(es: seq<Entry>): nat {
    if |es| == 0 then 0 else |es[0].lines| + SumLengths(es[1..])
  }

  ghost predicate AllNonEmpty(es: seq<Entry>) {
    forall i :: 0 <= i < |es| ==> |es[i].lines| > 0
  }

  /**
   * m_words[s].push_back(n): find the entry whose key is equivalent to s
   * under the comparator (neither orders before the other) and append n to
   * its list, or create the entry with the list [n] in its sorted place.
   */
  function Upsert(es: seq<Entry>, s: string, n: int): (r: seq<Entry>)
    decreases |es|
  {
    if |es| == 0 then [Entry(s, [n])]
    else if StringLess(s, es[0].word) then [Entry(s, [n])] + es
    else if !StringLess(es[0].word, s) then [Entry(es[0].word, es[0].lines + [n])] + es[1..]
    else [es[0]] + Upsert(es[1..], s, n)
  }

  /** A sorted sequence is its first entry above the sorted rest. */
  lemma SortedCons(e: Entry, es: seq<Entry>)
    ensures StrictlySorted([e] + es) <==> AllAbove(e.word, es) && StrictlySorted(es)
  {
    var r := [e] + es;
    if AllAbove(e.word, es) && StrictlySorted(es) {
      forall i, j | 0 <= i < j < |r|
        ensures StringLess(r[i].word, r[j].word)
      {
        if i > 0 {
          assert r[i] == es[i - 1] && r[j] == es[j - 1];
        }
      }
    }
    if StrictlySorted(r) {
      forall i | 0 <= i < |es|
        ensures StringLess(e.word, es[i].word)
      {
        assert r[0] == e && r[i + 1] == es[i];
        assert StringLess(r[0].word, r[i + 1].word);
      }
      forall i, j | 0 <= i < j < |es|
        ensures StringLess(es[i].word, es[j].word)
      {
        assert r[i + 1] == es[i] && r[j + 1] == es[j];
      }
    }
  }

  /** In sorted entries, a word below the first word is below all of them. */
  lemma {:induction false} BelowFirst(es: seq<Entry>, s: string)
    requires StrictlySorted(es) && |es| > 0 && StringLess(s, es[0].word)
    ensures AllAbove(s, es) && s !in Keys(es)
  {
    forall i | 0 <= i < |es|
      ensures StringLess(s, es[i].word) && es[i].word != s
    {
      if i > 0 {
        StringLessTransitive(s, es[0].word, es[i].word);
      }
      StringLessTotal(s, es[i].word);
    }
  }

  /** Upsert adds s to the keys and no other. */
  lemma {:induction false} UpsertKeys(es: seq<Entry>, s: string, n: int)
    ensures Keys(Upsert(es, s, n)) == Keys(es) + {s}
    decreases |es|
  {
    if |es| > 0 {
      StringLessTotal(s, es[0].word);
      if StringLess(s, es[0].word) {
        assert Upsert(es, s, n)[1..] == es;
      } else if !StringLess(es[0].word, s) {
        assert Upsert(es, s, n)[1..] == es[1..];
      } else {
        UpsertKeys(es[1..], s, n);
        assert Upsert(es, s, n)[1..] == Upsert(es[1..], s, n);
      }
    }
  }

  /** A word below s that is below every key stays below every key. */
  lemma {:induction false} UpsertAbove(w: string, es: seq<Entry>, s: string, n: int)
    requires AllAbove(w, es) && StringLess(w, s)
    ensures AllAbove(w, Upsert(es, s, n))
  {
    UpsertKeys(es, s, n);
    var r := Upsert(es, s, n);
    forall i | 0 <= i < |r|
      ensures StringLess(w, r[i].word)
    {
      assert r[i].word in Keys(es) + {s};
    }
  }

  /** Upsert keeps the entries strictly sorted. */
  lemma {:induction false} UpsertSorted(es: seq<Entry>, s: string, n: int)
    requires StrictlySorted(es)
    ensures StrictlySorted(Upsert(es, s, n))
    decreases |es|
  {
    if |es| == 0 {
    } else if StringLess(s, es[0].word) {
      BelowFirst(es, s);
      SortedCons(Entry(s, [n]), es);
    } else if !StringLess(es[0].word, s) {
      SortedCons(es[0], es[1..]);
      assert es == [es[0]] + es[1..];
      SortedCons(Entry(es[0].word, es[0].lines + [n]), es[1..]);
    } else {
      SortedCons(es[0], es[1..]);
      assert es == [es[0]] + es[1..];
      UpsertSorted(es[1..], s, n);
      UpsertAbove(es[0].word, es[1..], s, n);
      SortedCons(es[0], Upsert(es[1..], s, n));
    }
  }

  /** Upsert adds an entry exactly when s was not a key. */
  lemma {:induction false} UpsertLength(es: seq<Entry>, s: string, n: int)
    requires StrictlySorted(es)
    ensures |Upsert(es, s, n)| == |es| + (if s in Keys(es) then 0 else 1)
    decreases |es|
  {
    if |es| > 0 {
      StringLessTotal(s, es[0].word);
      if StringLess(s, es[0].word) {
        BelowFirst(es, s);
      } else if StringLess(es[0].word, s) {
        SortedCons(es[0], es[1..]);
        assert es == [es[0]] + es[1..];
        UpsertLength(es[1..], s, n);
        assert Keys(es) == {es[0].word} + Keys(es[1..]);
      }
    }
  }

  /** Upsert appends n to the list of s and leaves every other list as it was. */
  lemma {:induction false} UpsertLookup(es: seq<Entry>, s: string, n: int, w: string)
    requires StrictlySorted(es)
    ensures Lookup(Upsert(es, s, n), w) == if w == s then Lookup(es, s) + [n] else Lookup(es, w)
    decreases |es|
  {
    if |es| > 0 {
      StringLessTotal(s, es[0].word);
      if StringLess(s, es[0].word) {
        BelowFirst(es, s);
      } else if StringLess(es[0].word, s) {
        SortedCons(es[0], es[1..]);
        assert es == [es[0]] + es[1..];
        UpsertLookup(es[1..], s, n, w);
      }
    }
  }

  /** The map view of Upsert: the list of s extended by n, every other key unchanged. */
  lemma UpsertAsMap(es: seq<Entry>, s: string, n: int)
    requires StrictlySorted(es)
    ensures AsMap(Upsert(es, s, n)) == AsMap(es)[s := Lookup(es, s) + [n]]
  {
    var u := Upsert(es, s, n);
    UpsertKeys(es, s, n);
    var m1 := AsMap(u);
    var m2 := AsMap(es)[s := Lookup(es, s) + [n]];
    assert m1.Keys == m2.Keys;
    forall w | w in m1.Keys
      ensures m1[w] == m2[w]
    {
      UpsertLookup(es, s, n, w);
    }
    assert m1 == m2;
  }

  /** Upsert adds exactly one line reference and never leaves a list empty. */
  lemma {:induction false} UpsertCounts(es: seq<Entry>, s: string, n: int)
    requires AllNonEmpty(es)
    ensures SumLengths(Upsert(es, s, n)) == SumLengths(es) + 1
    ensures AllNonEmpty(Upsert(es, s, n))
    decreases |es|
  {
    if |es| > 0 {
      var r := Upsert(es, s, n);
      if StringLess(s, es[0].word) {
        assert r[1..] == es;
      } else if !StringLess(es[0].word, s) {
        assert r[1..] == es[1..];
      } else {
        UpsertCounts(es[1..], s, n);
        assert r[1..] == Upsert(es[1..], s, n);
      }
    }
  }

  /** In sorted entries every key occurs once, so their number is the number of keys. */
  lemma {:induction false} SortedKeyCount(es: seq<Entry>)
    requires StrictlySorted(es)
    ensures |Keys(es)| == |es|
    decreases |es|
  {
    if |es| > 0 {
      var rest := es[1..];
      assert StrictlySorted(rest) by {
        SortedCons(es[0], rest);
        assert es == [es[0]] + rest;
      }
      SortedKeyCount(rest);
      assert es[0].word !in Keys(rest) by {
        if es[0].word in Keys(rest) {
          var k :| 0 <= k < |rest| && rest[k].word == es[0].word;
          assert StringLess(es[0].word, es[k + 1].word);
          StringLessIrreflexive(es[0].word);
        }
      }
      assert Keys(es) == {es[0].word} + Keys(rest);
    }
  }

  /** The lines inserted for w, in call order. */
  function LinesFor(ts: seq<TextLine>, w: string): seq<int> {
    if |ts| == 0 then []
    else LinesFor(ts[..|ts| - 1], w) + (if ts[|ts| - 1].first == w then [ts[|ts| - 1].second] else [])
  }

  /** A run of insert calls, one per (word, line) pair, in order. */
  function InsertAll(es: seq<Entry>, ts: seq<TextLine>): seq<Entry> {
    if |ts| == 0 then es else Upsert(InsertAll(es, ts[..|ts| - 1]), ts[|ts| - 1].first, ts[|ts| - 1].second)
  }

  /** The lines of a split run are those of its first part, then those of its second. */
  lemma {:induction false} LinesForAppend(a: seq<TextLine>, b: seq<TextLine>, w: string)
    ensures LinesFor(a + b, w) == LinesFor(a, w) + LinesFor(b, w)
    decreases |b|
  {
    if |b| == 0 {
      assert a + b == a;
    } else {
      assert (a + b)[..|a + b| - 1] == a + b[..|b| - 1];
      LinesForAppend(a, b[..|b| - 1], w);
    }
  }

  /** One more call at the end of a run is one more Upsert on its result. */
  lemma InsertAllSnoc(es: seq<Entry>, ts: seq<TextLine>, t: TextLine)
    ensures InsertAll(es, ts + [t]) == Upsert(InsertAll(es, ts), t.first, t.second)
  {
    assert (ts + [t])[..|ts|] == ts;
  }

  /**
   * After any run of insertions: each word's list is its earlier list
   * followed by the lines it was inserted with, in call order, with no
   * deduplication or sorting; the references grow by the number of calls;
   * the entries stay sorted with non-empty lists.
   */
  lemma {:induction false} InsertAllSpec(es: seq<Entry>, ts: seq<TextLine>, w: string)
    requires StrictlySorted(es) && AllNonEmpty(es)
    ensures Lookup(InsertAll(es, ts), w) == Lookup(es, w) + LinesFor(ts, w)
    ensures SumLengths(InsertAll(es, ts)) == SumLengths(es) + |ts|
    ensures StrictlySorted(InsertAll(es, ts)) && AllNonEmpty(InsertAll(es, ts))
    decreases |ts|
  {
    if |ts| > 0 {
      var init, last := ts[..|ts| - 1], ts[|ts| - 1];
      InsertAllSpec(es, init, w);
      var mid := InsertAll(es, init);
      UpsertLookup(mid, last.first, last.second, w);
      UpsertCounts(mid, last.first, last.second);
      UpsertSorted(mid, last.first, last.second);
    }
  }

  /**
   * Keys differing only in case are different keys: inserting "Hello",
   * "hello" and "WORLD" on line 1 gives three entries iterated as "Hello",
   * "WORLD", "hello".
   */
  lemma CaseSensitiveKeys()
    ensures InsertAll([], [Pair("Hello", 1), Pair("hello", 1), Pair("WORLD", 1)])
      == [Entry("Hello", [1]), Entry("WORLD", [1]), Entry("hello", [1])]
  {
    var ts := [Pair("Hello", 1), Pair("hello", 1), Pair("WORLD", 1)];
    var e1 := [Entry("Hello", [1])];
    var e2 := [Entry("Hello", [1]), Entry("hello", [1])];
    assert ts[..2][..1] == [Pair("Hello", 1)] && ts[..1] == [Pair("Hello", 1)];
    assert ts[..2] == [Pair("Hello", 1), Pair("hello", 1)];
    assert InsertAll([], [Pair("Hello", 1)][..0]) == [];
    assert InsertAll([], [Pair("Hello", 1)]) == e1;
    assert StringLess("Hello", "hello");
    assert !StringLess("hello", "Hello");
    assert e1[1..] == [];
    assert Upsert(e1, "hello", 1) == e2;
    assert InsertAll([], ts[..2]) == e2;
    assert StringLess("Hello", "WORLD");
    assert !StringLess("WORLD", "Hello");
    assert StringLess("WORLD", "hello");
    assert e2[1..] == [Entry("hello", [1])];
    assert Upsert(e2[1..], "WORLD", 1) == [Entry("WORLD", [1]), Entry("hello", [1])];
    assert Upsert(e2, "WORLD", 1) == [Entry("Hello", [1]), Entry("WORLD", [1]), Entry("hello", [1])];
  }

  // ---------------------------------------------------------------------
  // The WordIndex class and its insert iterator

  class WordIndex {
    /** m_lines: the number of line references. */
    var references: int
    /** m_words, in iteration order. */
    var entries: seq<Entry>

    ghost predicate Valid()
      reads this
    {
      && StrictlySorted(entries)
      && AllNonEmpty(entries)
      && references == SumLengths(entries)
    }

    constructor ()
      ensures Valid() && entries == [] && references == 0
      ensures Words() == 0 && Lines() == 0
    {
      references := 0;
      entries := [];
    }

    /** insert(s, n): one more reference; n appended to the list of s. */
    method Insert(s: string, n: int)
      requires Valid()
      modifies this
      ensures Valid()
      ensures entries == Upsert(old(entries), s, n)
      ensures Lines() == old(Lines()) + 1
      ensures Words() == old(Words()) + (if s in Keys(old(entries)) then 0 else 1)
      ensures AsMap(entries) == AsMap(old(entries))[s := Lookup(old(entries), s) + [n]]
    {
      UpsertSorted(entries, s, n);
      UpsertCounts(entries, s, n);
      UpsertAsMap(entries, s, n);
      UpsertLength(entries, s, n);
      SortedKeyCount(entries);
      SortedKeyCount(Upsert(entries, s, n));
      references := references + 1;
      entries := Upsert(entries, s, n);
    }

    /** insert(pair): the same as insert(pair.first, pair.second). */
    method InsertPair(pair: TextLine)
      requires Valid()
      modifies this
      ensures Valid()
      ensures entries == Upsert(old(entries), pair.first, pair.second)
      ensures references == old(references) + 1
    {
      Insert(pair.first, pair.second);
    }

    /** insert(pos, pair): the position hint is ignored. */
    method InsertAt(pos: nat, pair: TextLine)
      requires Valid()
      modifies this
      ensures Valid()
      ensures entries == Upsert(old(entries), pair.first, pair.second)
      ensures references == old(references) + 1
    {
      Insert(pair.first, pair.second);
    }

    /**
     * begin() to end(): the map's entries in key order, each key once with
     * its non-empty list, as many entries as words() and as many line
     * numbers as lines().
     */
    function Iterate(): (r: seq<Entry>)
      reads this
      requires Valid()
      ensures StrictlySorted(r) && AllNonEmpty(r)
      ensures Keys(r) == Keys(entries) && forall w :: Lookup(r, w) == Lookup(entries, w)
      ensures |r| == Words() && SumLengths(r) == Lines()
    {
      entries
    }

    /** words(): the number of distinct keys. */
    function Words(): (r: int)
      reads this
      requires Valid()
      ensures r == |Keys(entries)|
    {
      SortedKeyCount(entries);
      |entries|
    }

    /** lines(): the number of line references, the sum of the lengths of all lists. */
    function Lines(): (r: int)
      reads this
      requires Valid()
      ensures r == SumLengths(entries)
    {
      references
    }
  }

  /** insert_iterator<WordIndex>: an output iterator whose assignment inserts. */
  class InsertIterator {
    const container: WordIndex

    constructor (container: WordIndex)
      ensures this.container == container
    {
      this.container := container;
    }

    /** operator=: one insert of the pair. */
    method Assign(value: TextLine) returns (r: InsertIterator)
      requires container.Valid()
      modifies container
      ensures container.Valid() && r == this
      ensures container.entries == Upsert(old(container.entries), value.first, value.second)
      ensures container.references == old(container.references) + 1
    {
      container.InsertPair(value);
      r := this;
    }

    /** operator++ (both forms): no effect. */
    method Increment() returns (r: InsertIterator)
      ensures r == this
    {
      r := this;
    }

    /** operator*: the iterator itself. */
    method Deref() returns (r: InsertIterator)
      ensures r == this
    {
      r := this;
    }
  }

  /** wordindex_inserter. */
  method Inserter(collection: WordIndex) returns (it: InsertIterator)
    ensures fresh(it) && it.container == collection
  {
    it := new InsertIterator(collection);
  }
}
