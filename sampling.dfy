/**
 * The topic filter and `random.sample` shared by both quiz generators.
 *
 * `random.sample` draws from the random source; here that source is the
 * parameter `draw`, read once per pick, so every outcome of the library call is
 * the value of `Sample` for some `draw`.
 */
module Sampling {
  import opened Base
  import opened Text
  import opened Stores

  /** `random.sample` raises `ValueError` for a negative size or one larger than the population. */
  datatype SampleError = SampleSizeOutOfRange

  function Min(a: int, b: int): (m: int)
    ensures m <= a && m <= b
    ensures m == a || m == b
  {
    if a <= b then a else b
  }

  /**
   * `[q for q in bank if query.lower() in q["topic"].lower()]`: the entries whose
   * lower-cased topic contains the lower-cased query, in bank order.
   */
  function Matching<T(==,!new)>(bank: seq<T>, topicOf: T -> string, query: string): (r: seq<T>)
    ensures IsSubsequence(r, bank)
    ensures forall x :: x in r <==> x in bank && Contains(Lower(topicOf(x)), Lower(query))
  {
    if bank == [] then []
    else
      var rest := Matching(bank[1..], topicOf, query);
      assert forall x :: x in bank <==> x == bank[0] || x in bank[1..] by {
        assert bank == [bank[0]] + bank[1..];
      }
      if Contains(Lower(topicOf(bank[0])), Lower(query)) then
        assert ([bank[0]] + rest)[1..] == rest;
        [bank[0]] + rest
      else rest
  }

  /** One step of the filter: the head is kept exactly when its topic matches. */
  lemma MatchingCons<T(!new)>(bank: seq<T>, topicOf: T -> string, query: string)
    requires bank != []
    ensures Matching(bank, topicOf, query) ==
      (if Contains(Lower(topicOf(bank[0])), Lower(query)) then [bank[0]] else []) + Matching(bank[1..], topicOf, query)
  {
  }

  /**
   * One pick of CPython's pool algorithm: the picked slot is overwritten by the
   * last candidate and the candidate list shrinks by one.
   */
  function SwapRemove<T>(pool: seq<T>, j: nat): (r: seq<T>)
    requires j < |pool|
    ensures |r| == |pool| - 1
  {
    var last := |pool| - 1;
    if j == last then pool[..last] else pool[..j] + [pool[last]] + pool[j + 1..last]
  }

  /** A pick removes exactly the picked entry from the candidates. */
  lemma SwapRemoveMultiset<T>(pool: seq<T>, j: nat)
    requires j < |pool|
    ensures multiset(SwapRemove(pool, j)) == multiset(pool) - multiset{pool[j]}
  {
    var last := |pool| - 1;
    if j == last {
      assert pool == pool[..last] + [pool[last]];
    } else {
      assert pool == pool[..j] + [pool[j]] + pool[j + 1..last] + [pool[last]];
    }
  }

  /**
   * `k` picks, the `step`-th one at index `draw(step)` modulo the number of
   * candidates left (`randbelow(n - i)`).
   */
  function Draw<T>(pool: seq<T>, k: nat, draw: nat -> nat, step: nat): (r: seq<T>)
    requires k <= |pool|
    ensures |r| == k
    decreases k
  {
    if k == 0 then []
    else
      var j := draw(step) % |pool|;
      [pool[j]] + Draw(SwapRemove(pool, j), k - 1, draw, step + 1)
  }

  /** The picks are drawn without replacement: together they are part of the pool. */
  lemma {:induction false} DrawMultiset<T>(pool: seq<T>, k: nat, draw: nat -> nat, step: nat)
    requires k <= |pool|
    ensures multiset(Draw(pool, k, draw, step)) <= multiset(pool)
    decreases k
  {
    if k > 0 {
      var j := draw(step) % |pool|;
      var rest := SwapRemove(pool, j);
      SwapRemoveMultiset(pool, j);
      assert multiset([pool[j]] + rest) == multiset{pool[j]} + multiset(rest);
      DrawMultiset(rest, k - 1, draw, step + 1);
      assert Draw(pool, k, draw, step) == [pool[j]] + Draw(rest, k - 1, draw, step + 1);
      assert pool[j] in multiset(pool);
    }
  }

  /**
   * `random.sample(population, k)`: `k` entries taken from distinct positions of
   * the population, or `ValueError` when `k` is out of range.
   */
  function Sample<T(==,!new)>(population: seq<T>, k: int, draw: nat -> nat): (r: Result<seq<T>, SampleError>)
    ensures r.Ok? <==> 0 <= k <= |population|
    ensures r.Ok? ==>
      && |r.value| == k
      && multiset(r.value) <= multiset(population)
      && (NoDuplicates(population) ==> NoDuplicates(r.value))
  {
    if 0 <= k <= |population| then
      DrawMultiset(population, k, draw, 0);
      assert NoDuplicates(population) ==> NoDuplicates(Draw(population, k, draw, 0)) by {
        if NoDuplicates(population) {
          SubMultisetNoDuplicates(Draw(population, k, draw, 0), population);
        }
      }
      Ok(Draw(population, k, draw, 0))
    else Err(SampleSizeOutOfRange)
  }

  /** Everything a sample holds comes from the population. */
  lemma SampleMembers<T>(population: seq<T>, chosen: seq<T>)
    requires multiset(chosen) <= multiset(population)
    ensures forall x :: x in chosen ==> x in population
  {
    forall x | x in chosen
      ensures x in population
    {
      assert multiset(chosen)[x] > 0;
    }
  }
}
