/**
 * The two-field value type of Pair.h: a token with its line number, a
 * filename with the line it was read from. The C++ struct has value
 * semantics (it is copied into and out of every container), so it is a
 * datatype here; its assignment operators update one field of a variable,
 * which is written `p := p.AssignFirst(u)`.
 */
module Pairs {

  datatype Pair<U, V> = Pair(first: U, second: V) {

    /** operator=(U const&): replaces the first field, keeps the second. */
    function AssignFirst(u: U): (r: Pair<U, V>)
      ensures r.first == u
      ensures r.second == second
    {
      this.(first := u)
    }

    /** operator=(V const&): replaces the second field, keeps the first. */
    function AssignSecond(v: V): (r: Pair<U, V>)
      ensures r.first == first
      ensures r.second == v
    {
      this.(second := v)
    }

    /** operator const U(): the conversion to the first type. */
    function AsFirst(): (u: U)
      ensures u == first
    {
      first
    }

    /** operator const V(): the conversion to the second type. */
    function AsSecond(): (v: V)
      ensures v == second
    {
      second
    }
  }

  /**
   * The instantiation the program uses everywhere (Tokenizer::value_type,
   * WordIndex::token_type and the filename list element): a string with an
   * int. Value-initialisation gives the empty string and 0.
   */
  type TextLine = Pair<string, int>

  /** Pair(): both fields value-initialised. */
  function DefaultPair(): (p: TextLine)
    ensures p.first == "" && p.second == 0
  {
    Pair("", 0)
  }

  /** explicit Pair(U const&): the first field given, the second value-initialised. */
  function FromFirst(u: string): (p: TextLine)
    ensures p.first == u && p.second == 0
  {
    Pair(u, 0)
  }

  /** explicit Pair(V const&): the second field given, the first value-initialised. */
  function FromSecond(v: int): (p: TextLine)
    ensures p.first == "" && p.second == v
  {
    Pair("", v)
  }

  /** Assigning the first type and converting back gives what was assigned; the other field survives. */
  lemma AssignFirstThenConvert<U, V>(p: Pair<U, V>, u: U)
    ensures p.AssignFirst(u).AsFirst() == u
    ensures p.AssignFirst(u).AsSecond() == p.AsSecond()
    ensures p.AssignFirst(u).AssignSecond(p.second) == Pair(u, p.second)
  {
  }

  /** Assigning the second type and converting back gives what was assigned; the other field survives. */
  lemma AssignSecondThenConvert<U, V>(p: Pair<U, V>, v: V)
    ensures p.AssignSecond(v).AsSecond() == v
    ensures p.AssignSecond(v).AsFirst() == p.AsFirst()
  {
  }

  /**
   * The sequence of the unit test: constructing from one field and assigning
   * the other gives the same value as the two-argument constructor.
   */
  lemma OneSidedConstructionThenAssign(u: string, v: int)
    ensures FromSecond(v).AssignFirst(u) == Pair(u, v)
    ensures FromFirst(u).AssignSecond(v) == Pair(u, v)
    ensures DefaultPair().AssignFirst(u).AssignSecond(v) == Pair(u, v)
  {
  }
}
