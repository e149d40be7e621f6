/**
 The projection run: the engine applied once per year, starting from the
 historical seed, each year consuming only the previous year's record
 (app.py:57-131). `Run` is the fold as a recursive function producing the
 ordered list of records; `Project` is the source's loop over a growing
 list, proved to compute the same list. A `Chain` is any list in which each
 year is the engine applied to the year before it; the run from a seed is
 the only chain that starts at that seed.
 */
module Projection {
  import opened Statements
  import opened Engine

  /** Year i of `r` is the engine applied to year i-1 with loop index i. */
  predicate Follows(r: seq<Period>, d: Drivers, i: nat)
    requires 1 <= i < |r|
  {
    r[i] == Advance(r[i - 1], d, i)
  }

  /** Every year after the first is the engine applied to the one before. */
  predicate Chain(r: seq<Period>, d: Drivers) {
    forall i :: 1 <= i < |r| ==> Follows(r, d, i)
  }

  /** The seed followed by `years` projected years; year i is built from
      year i-1 with loop index i. */
  function Run(seed: Period, d: Drivers, years: nat): (r: seq<Period>)
    ensures |r| == years + 1
    ensures r[0] == seed
    decreases years
  {
    if years == 0 then [seed]
    else
      var prior := Run(seed, d, years - 1);
      prior + [Advance(prior[years - 1], d, years)]
  }

  /** One more year of horizon appends the engine applied to the last year. */
  lemma RunExtends(seed: Period, d: Drivers, years: nat)
    requires years >= 1
    ensures Run(seed, d, years) == Run(seed, d, years - 1) + [Advance(Run(seed, d, years - 1)[years - 1], d, years)]
  {
  }

  /** The source's loop: start from the seed and append one record per year,
      reading the previous record as the last element of the list. */
  method Project(seed: Period, d: Drivers, years: nat) returns (projections: seq<Period>)
    ensures projections == Run(seed, d, years)
  {
    projections := [seed];
    var year := 1;
    while year <= years
      invariant 1 <= year <= years + 1
      invariant projections == Run(seed, d, year - 1)
    {
      var prev := projections[|projections| - 1];
      LoopStep(seed, d, year, projections);
      projections := projections + [Advance(prev, d, year)];
      year := year + 1;
    }
    assert year - 1 == years;
  }

  /** One pass of the loop turns the run of `year - 1` years into the run
      of `year` years. */
  lemma LoopStep(seed: Period, d: Drivers, year: nat, projections: seq<Period>)
    requires year >= 1 && projections == Run(seed, d, year - 1)
    ensures projections + [Advance(projections[year - 1], d, year)] == Run(seed, d, year)
  {
    RunExtends(seed, d, year);
  }

  /** Each year of the run is the engine applied to the year before it. */
  lemma {:induction false} RunIsChain(seed: Period, d: Drivers, years: nat)
    ensures Chain(Run(seed, d, years), d)
  {
    if years > 0 {
      RunIsChain(seed, d, years - 1);
      RunChainStep(seed, d, years);
    }
  }

  lemma RunChainStep(seed: Period, d: Drivers, years: nat)
    requires years >= 1 && Chain(Run(seed, d, years - 1), d)
    ensures Chain(Run(seed, d, years), d)
  {
    var prior := Run(seed, d, years - 1);
    var next := Advance(prior[years - 1], d, years);
    RunExtends(seed, d, years);
    ChainExtend(prior, d, next, Run(seed, d, years));
  }

  /** Appending the engine applied to the last year extends a chain. */
  lemma ChainExtend(s: seq<Period>, d: Drivers, p: Period, t: seq<Period>)
    requires Chain(s, d) && |s| >= 1
    requires p == Advance(s[|s| - 1], d, |s|)
    requires t == s + [p]
    ensures Chain(t, d)
  {
    forall i | 1 <= i < |t|
      ensures Follows(t, d, i)
    {
      if i < |s| {
        assert Follows(s, d, i);
        assert t[i] == s[i] && t[i - 1] == s[i - 1];
      } else {
        assert t[i] == p && t[i - 1] == s[|s| - 1];
      }
    }
  }

  /** Record i of a chain is a projected record of year i. */
  lemma ChainYears(r: seq<Period>, d: Drivers)
    requires Chain(r, d)
    ensures forall i :: 1 <= i < |r| ==> r[i].Projected? && r[i].Year() == i
  {
    forall i | 1 <= i < |r|
      ensures r[i].Projected? && r[i].Year() == i
    {
      assert Follows(r, d, i);
    }
  }

  /** Cutting a chain short leaves a chain. */
  lemma ChainPrefix(r: seq<Period>, d: Drivers, k: nat)
    requires Chain(r, d) && k <= |r|
    ensures Chain(r[..k], d)
  {
    var p := r[..k];
    forall i | 1 <= i < |p|
      ensures Follows(p, d, i)
    {
      assert Follows(r, d, i);
    }
  }

  /** Any chain that starts at the seed is exactly the run of its length. */
  lemma RunIsDetermined(seed: Period, d: Drivers, s: seq<Period>)
    requires 1 <= |s| && s[0] == seed
    requires Chain(s, d)
    ensures s == Run(seed, d, |s| - 1)
  {
    var r := Run(seed, d, |s| - 1);
    RunIsChain(seed, d, |s| - 1);
    forall i | 0 <= i < |s|
      ensures s[i] == r[i]
    {
      ChainsAgree(s, r, d, i);
    }
  }

  /** Two chains with the same first year agree year by year. */
  lemma {:induction false} ChainsAgree(s: seq<Period>, t: seq<Period>, d: Drivers, i: nat)
    requires Chain(s, d) && Chain(t, d)
    requires i < |s| && i < |t| && s[0] == t[0]
    ensures s[i] == t[i]
  {
    if i > 0 {
      ChainsAgree(s, t, d, i - 1);
      assert Follows(s, d, i);
      assert Follows(t, d, i);
    }
  }

  /** Stretching the horizon leaves every earlier year as it was. */
  lemma RunPrefixStable(seed: Period, d: Drivers, m: nat, n: nat)
    requires m <= n
    ensures Run(seed, d, n)[..m + 1] == Run(seed, d, m)
  {
    RunIsChain(seed, d, n);
    ChainPrefix(Run(seed, d, n), d, m + 1);
    RunIsDetermined(seed, d, Run(seed, d, n)[..m + 1]);
  }
}
