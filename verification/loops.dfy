/** How an imperative loop that accumulates results and writes relates to PlanLoop. */
module Loops {
  import opened Wrappers
  import opened Graph
  import opened Plan

  lemma PlusLaws(a: Gathered, b: Gathered, c: Gathered)
    ensures Plus(Nothing, a) == a && Plus(a, Nothing) == a
    ensures Plus(Plus(a, b), c) == Plus(a, Plus(b, c))
  {
    assert [] + a.entries == a.entries && [] + a.files == a.files && [] + a.hits == a.hits;
    assert a.entries + [] == a.entries && a.files + [] == a.files && a.hits + [] == a.hits;
    assert a.entries + b.entries + c.entries == a.entries + (b.entries + c.entries);
    assert a.files + b.files + c.files == a.files + (b.files + c.files);
    assert a.hits + b.hits + c.hits == a.hits + (b.hits + c.hits);
  }

  lemma LeadLaws(a: Gathered, p: seq<Put>, b: Gathered, q: seq<Put>, r: Run<Gathered>)
    ensures Lead(Nothing, [], r) == r
    ensures Lead(a, p, Lead(b, q, r)) == Lead(Plus(a, b), p + q, r)
  {
    assert [] + r.puts == r.puts;
    assert p + (q + r.puts) == p + q + r.puts;
    if r.res.Success? {
      PlusLaws(a, b, r.res.value);
      PlusLaws(r.res.value, b, a);
    }
  }

  /** total is what the whole loop computes; g and puts are what its first i iterations contributed. */
  ghost predicate Midway<X>(total: Run<Gathered>, step: (Store, X) -> Run<Gathered>, s: Store, xs: seq<X>, i: nat,
                            g: Gathered, puts: seq<Put>)
    requires i <= |xs|
  {
    total == Lead(g, puts, PlanLoop(step, s, xs[i..]))
  }

  lemma LoopStart<X>(step: (Store, X) -> Run<Gathered>, s: Store, xs: seq<X>)
    ensures Midway(PlanLoop(step, s, xs), step, s, xs, 0, Nothing, [])
  {
    assert xs[0..] == xs;
    LeadLaws(Nothing, [], Nothing, [], PlanLoop(step, s, xs));
  }

  lemma LoopNext<X>(total: Run<Gathered>, step: (Store, X) -> Run<Gathered>, s: Store, xs: seq<X>, i: nat,
                    g: Gathered, puts: seq<Put>)
    requires i < |xs| && Midway(total, step, s, xs, i, g, puts)
    ensures var r := step(s, xs[i]);
            && (r.res.Success? ==> Midway(total, step, After(s, r.puts), xs, i + 1, Plus(g, r.res.value), puts + r.puts))
            && (r.res.Failure? ==> total == Run(Failure(r.res.error), puts + r.puts))
            && puts + r.puts <= total.puts
  {
    var r := step(s, xs[i]);
    assert xs[i..][0] == xs[i] && xs[i..][1..] == xs[i + 1..];
    if r.res.Success? {
      LeadLaws(g, puts, r.res.value, r.puts, PlanLoop(step, After(s, r.puts), xs[i + 1..]));
    }
  }

  lemma LoopEnd<X>(total: Run<Gathered>, step: (Store, X) -> Run<Gathered>, s: Store, xs: seq<X>,
                   g: Gathered, puts: seq<Put>)
    requires Midway(total, step, s, xs, |xs|, g, puts)
    ensures total == Run(Success(g), puts)
  {
    PlusLaws(g, Nothing, Nothing);
    assert puts + [] == puts;
  }

  /** The result of a storage-backed operation against its plan: equal when storage never faulted, and otherwise a
      storage failure that left a prefix of the planned writes, the last of them possibly damaged. */
  ghost predicate Refines<T>(faulted: bool, r: Result<T, Error>, puts: seq<Put>, plan: Run<T>) {
    if faulted then r.Failure? && r.error.StorageFailed? && Interrupted(puts, plan.puts)
    else r == plan.res && puts == plan.puts
  }

  lemma CutInside(before: seq<Put>, puts: seq<Put>, step: seq<Put>, total: seq<Put>)
    requires Interrupted(puts, step) && before + step <= total
    ensures Interrupted(before + puts, total)
  {
    assert total[..|before + step|] == before + step;
  }
}
