/** ATVA-3.py: `ATVA3.monte_carlo_best_preferences`. Voters whose ballots
    hold the placeholder '?' get them completed at random; the outcome of
    each simulated situation is scored by the overall happiness, and the
    first simulation with the highest score is returned.

    `random.shuffle` is a parameter: `shuffle(k, v, missing)` is the order
    into which the k-th simulation shuffles the candidates missing from
    voter v's ballot. `deepcopy` is implicit: situations are values. */
module Atva3 {
  import opened Common
  import opened Collaborators

  /** The placeholder of an unknown preference. */
  const Unknown: Candidate := '?'

  /** The order `random.shuffle` leaves the missing candidates in. */
  type Shuffle = (nat, VoterId, seq<Candidate>) -> seq<Candidate>

  /** A simulated situation and its overall happiness. */
  type Scored = (seq<Ballot>, real)

  // ---------------------------------------------------------------------
  // Completing one ballot

  /** The number of placeholders in a ballot. */
  function Holes(prefs: Ballot): (n: nat)
    ensures n <= |prefs|
    ensures n == 0 <==> Unknown !in prefs
  {
    if prefs == [] then 0
    else
      var init := prefs[..|prefs| - 1];
      InSnoc(prefs, Unknown);
      Holes(init) + (if prefs[|prefs| - 1] == Unknown then 1 else 0)
  }

  /** `known_prefs`: the entries that are not placeholders, in order. */
  function Known(prefs: Ballot): (r: Ballot)
    ensures |r| + Holes(prefs) == |prefs|
    ensures forall x :: x in r <==> x in prefs && x != Unknown
  {
    if prefs == [] then []
    else
      var last := prefs[|prefs| - 1];
      InSnoc(prefs, last);
      forall x ensures x in prefs <==> x in prefs[..|prefs| - 1] || x == last {
        InSnoc(prefs, x);
      }
      Known(prefs[..|prefs| - 1]) + (if last == Unknown then [] else [last])
  }

  /** `missing_candidates`: the candidates of the situation, in its order,
      that the ballot does not already name. */
  function Missing(candidates: seq<Candidate>, known: Ballot): (r: seq<Candidate>)
    ensures forall x :: x in r <==> x in candidates && x !in known
    ensures Distinct(candidates) ==> Distinct(r)
  {
    if candidates == [] then []
    else
      var init := candidates[..|candidates| - 1];
      var last := candidates[|candidates| - 1];
      var rest := Missing(init, known);
      forall x ensures x in candidates <==> x in init || x == last {
        InSnoc(candidates, x);
      }
      assert Distinct(candidates) ==> Distinct(init) && last !in init;
      rest + (if last in known then [] else [last])
  }

  /** `simulated` once the loop has passed the entries `prefs`: a
      placeholder takes the next candidate of the shuffled pool (the
      pool's entry at the number of placeholders before it). */
  function Filled(prefs: Ballot, pool: seq<Candidate>): (r: Ballot)
    requires Holes(prefs) <= |pool|
    ensures |r| == |prefs|
  {
    if prefs == [] then []
    else
      var init := prefs[..|prefs| - 1];
      var last := prefs[|prefs| - 1];
      Filled(init, pool) + [if last == Unknown then pool[Holes(init)] else last]
  }

  /** The completed ballot: the filled entries followed by what is left
      of the pool (`simulated.extend(list(missing_iter))`); StopIteration
      when `next(missing_iter)` runs out of candidates. */
  function Completed(prefs: Ballot, pool: seq<Candidate>): (r: Result<Ballot>)
  {
    if Holes(prefs) > |pool| then Err(StopIteration)
    else Ok(Filled(prefs, pool) + pool[Holes(prefs)..])
  }

  /** The number of placeholders grows one entry at a time. */
  lemma {:induction false} HolesSnoc(prefs: Ballot, i: nat)
    requires i < |prefs|
    ensures Holes(prefs[..i + 1]) == Holes(prefs[..i]) + (if prefs[i] == Unknown then 1 else 0)
  {
    assert prefs[..i + 1][..i] == prefs[..i];
  }

  /** A prefix holds no more placeholders than the whole ballot. */
  lemma {:induction false} HolesPrefix(prefs: Ballot, i: nat)
    requires i <= |prefs|
    ensures Holes(prefs[..i]) <= Holes(prefs)
    decreases |prefs| - i
  {
    if i < |prefs| {
      HolesSnoc(prefs, i);
      HolesPrefix(prefs, i + 1);
    } else {
      assert prefs[..i] == prefs;
    }
  }

  /** Filling is done entry by entry. */
  lemma {:induction false} FilledSnoc(prefs: Ballot, pool: seq<Candidate>, i: nat)
    requires i < |prefs| && Holes(prefs[..i + 1]) <= |pool|
    ensures Holes(prefs[..i + 1]) == Holes(prefs[..i]) + (if prefs[i] == Unknown then 1 else 0)
    ensures Filled(prefs[..i + 1], pool) ==
            Filled(prefs[..i], pool) + [if prefs[i] == Unknown then pool[Holes(prefs[..i])] else prefs[i]]
  {
    assert prefs[..i + 1][..i] == prefs[..i];
    HolesSnoc(prefs, i);
  }

  /** One entry of the filled ballot: a known entry stays where it is,
      and a placeholder with k placeholders before it takes the pool's
      k-th candidate. */
  lemma {:induction false} FilledAt(prefs: Ballot, pool: seq<Candidate>, i: nat)
    requires Holes(prefs) <= |pool| && i < |prefs|
    ensures prefs[i] == Unknown ==> Holes(prefs[..i]) < |pool|
    ensures Filled(prefs, pool)[i] == if prefs[i] == Unknown then pool[Holes(prefs[..i])] else prefs[i]
    decreases |prefs|
  {
    var n := |prefs| - 1;
    var init := prefs[..n];
    if i == n {
      assert Filled(prefs, pool) == Filled(init, pool) + [if prefs[n] == Unknown then pool[Holes(init)] else prefs[n]];
    } else {
      FilledAt(init, pool, i);
      assert init[i] == prefs[i] && init[..i] == prefs[..i];
      assert Filled(prefs, pool)[i] == Filled(init, pool)[i];
    }
  }

  /** Every entry of the filled ballot, as in FilledAt. */
  lemma FilledMeaning(prefs: Ballot, pool: seq<Candidate>)
    requires Holes(prefs) <= |pool|
    ensures forall i :: 0 <= i < |prefs| && prefs[i] != Unknown ==> Filled(prefs, pool)[i] == prefs[i]
    ensures forall i :: 0 <= i < |prefs| && prefs[i] == Unknown ==>
              Holes(prefs[..i]) < |pool| && Filled(prefs, pool)[i] == pool[Holes(prefs[..i])]
  {
    forall i | 0 <= i < |prefs|
      ensures prefs[i] == Unknown ==> Holes(prefs[..i]) < |pool|
      ensures Filled(prefs, pool)[i] == if prefs[i] == Unknown then pool[Holes(prefs[..i])] else prefs[i]
    {
      FilledAt(prefs, pool, i);
    }
  }

  /** The placeholders take the first candidates of the pool, the known
      entries stay: as multisets, the filled ballot is the known entries
      plus the part of the pool used. */
  lemma {:induction false} FilledMultiset(prefs: Ballot, pool: seq<Candidate>)
    requires Holes(prefs) <= |pool|
    ensures multiset(Filled(prefs, pool)) == multiset(Known(prefs)) + multiset(pool[..Holes(prefs)])
    decreases |prefs|
  {
    if prefs != [] {
      FilledMultiset(prefs[..|prefs| - 1], pool);
      if prefs[|prefs| - 1] == Unknown {
        FilledHoleStep(prefs, pool);
      } else {
        FilledKnownStep(prefs, pool);
      }
    } else {
      assert Filled(prefs, pool) == Known(prefs) == pool[..Holes(prefs)] == [];
    }
  }

  /** The inductive step of FilledMultiset for a trailing placeholder:
      it takes the next candidate of the pool. */
  lemma {:induction false} FilledHoleStep(prefs: Ballot, pool: seq<Candidate>)
    requires prefs != [] && prefs[|prefs| - 1] == Unknown && Holes(prefs) <= |pool|
    requires var init := prefs[..|prefs| - 1];
      multiset(Filled(init, pool)) == multiset(Known(init)) + multiset(pool[..Holes(init)])
    ensures multiset(Filled(prefs, pool)) == multiset(Known(prefs)) + multiset(pool[..Holes(prefs)])
  {
    var init := prefs[..|prefs| - 1];
    var h := Holes(init);
    assert Known(prefs) == Known(init) && Holes(prefs) == h + 1;
    assert Filled(prefs, pool) == Filled(init, pool) + [pool[h]];
    TakeSnoc(pool, h);
  }

  /** A prefix one longer is the prefix and the next entry. */
  lemma TakeSnoc<T>(s: seq<T>, h: nat)
    requires h < |s|
    ensures s[..h + 1] == s[..h] + [s[h]]
  {
  }

  /** The inductive step of FilledMultiset for a trailing known entry:
      it is kept. */
  lemma {:induction false} FilledKnownStep(prefs: Ballot, pool: seq<Candidate>)
    requires prefs != [] && prefs[|prefs| - 1] != Unknown && Holes(prefs) <= |pool|
    requires var init := prefs[..|prefs| - 1];
      multiset(Filled(init, pool)) == multiset(Known(init)) + multiset(pool[..Holes(init)])
    ensures multiset(Filled(prefs, pool)) == multiset(Known(prefs)) + multiset(pool[..Holes(prefs)])
  {
    var init := prefs[..|prefs| - 1];
    var last := prefs[|prefs| - 1];
    assert Known(prefs) == Known(init) + [last] && Holes(prefs) == Holes(init);
    assert Filled(prefs, pool) == Filled(init, pool) + [last];
  }

  /** The completed ballot, entry by entry: StopIteration exactly when
      the ballot has more placeholders than the pool has candidates;
      otherwise the known entries keep their positions, the placeholders
      take the pool in order, the unused candidates follow, and the
      ballot holds the known entries and the whole pool. */
  lemma {:induction false} CompletedMeaning(prefs: Ballot, pool: seq<Candidate>)
    ensures Completed(prefs, pool).Err? <==> Holes(prefs) > |pool|
    ensures Completed(prefs, pool).Err? ==> Completed(prefs, pool) == Err(StopIteration)
    ensures Completed(prefs, pool).Ok? ==>
              var r := Completed(prefs, pool).value;
              |r| == |prefs| + |pool| - Holes(prefs) &&
              (forall i :: 0 <= i < |prefs| && prefs[i] != Unknown ==> r[i] == prefs[i]) &&
              (forall i :: 0 <= i < |prefs| && prefs[i] == Unknown ==>
                 Holes(prefs[..i]) < |pool| && r[i] == pool[Holes(prefs[..i])]) &&
              r[|prefs|..] == pool[Holes(prefs)..] &&
              multiset(r) == multiset(Known(prefs)) + multiset(pool)
  {
    if Holes(prefs) <= |pool| {
      var h := Holes(prefs);
      var f := Filled(prefs, pool);
      var r := f + pool[h..];
      FilledMeaning(prefs, pool);
      CompletedMultiset(prefs, pool);
      assert r[..|prefs|] == f;
      assert r[|prefs|..] == pool[h..];
    }
  }

  /** As multisets, a completed ballot is its known entries plus the
      whole pool. */
  lemma {:induction false} CompletedMultiset(prefs: Ballot, pool: seq<Candidate>)
    ensures Completed(prefs, pool).Ok? <==> Holes(prefs) <= |pool|
    ensures Completed(prefs, pool).Ok? ==>
              multiset(Completed(prefs, pool).value) == multiset(Known(prefs)) + multiset(pool)
  {
    if Holes(prefs) <= |pool| {
      var h := Holes(prefs);
      FilledMultiset(prefs, pool);
      assert pool == pool[..h] + pool[h..];
    }
  }

  /** Known entries that are distinct candidates occur among the
      candidates at most as often. */
  lemma {:induction false} KnownWithin(known: Ballot, candidates: seq<Candidate>)
    requires Distinct(known) && forall x :: x in known ==> x in candidates
    ensures multiset(known) <= multiset(candidates)
  {
    forall x ensures multiset(known)[x] <= multiset(candidates)[x] {
      DistinctMultiplicity(known, x);
      if x in known {
        assert x in multiset(candidates);
      }
    }
  }

  /** Counts in a sequence without repeats are 0 or 1. */
  lemma {:induction false} DistinctCount<T>(s: seq<T>, x: T)
    requires Distinct(s)
    ensures multiset(s)[x] == if x in s then 1 else 0
  {
    DistinctMultiplicity(s, x);
  }

  /** Over a situation whose candidates are distinct, the missing
      candidates are the candidates less the known ones. */
  lemma {:induction false} MissingMultiset(candidates: seq<Candidate>, known: Ballot)
    requires Distinct(candidates) && Distinct(known)
    ensures multiset(Missing(candidates, known)) == multiset(candidates) - multiset(known)
  {
    var m := Missing(candidates, known);
    forall x ensures multiset(m)[x] == (multiset(candidates) - multiset(known))[x] {
      DistinctCount(m, x);
      DistinctCount(candidates, x);
      DistinctCount(known, x);
    }
  }

  /** Taking a sub-multiset out and putting it back changes nothing. */
  lemma AddBack<T>(a: multiset<T>, k: multiset<T>)
    requires k <= a
    ensures a == k + (a - k)
  {
  }

  /** Distinct known candidates and a reordering of the candidates
      missing from them make up the candidate list, as a multiset. */
  lemma {:induction false} PoolCompletes(known: Ballot, candidates: seq<Candidate>, pool: seq<Candidate>)
    requires Distinct(candidates) && Distinct(known)
    requires forall x :: x in known ==> x in candidates
    requires multiset(pool) == multiset(Missing(candidates, known))
    ensures multiset(candidates) == multiset(known) + multiset(pool)
    ensures |candidates| == |known| + |pool|
  {
    MissingMultiset(candidates, known);
    KnownWithin(known, candidates);
    AddBack(multiset(candidates), multiset(known));
    assert |multiset(candidates)| == |multiset(known) + multiset(pool)|;
  }

  /** When the pool holds the candidates not yet known, completion
      succeeds exactly when the ballot is no longer than the candidate
      list. */
  lemma {:induction false} CompletesIff(prefs: Ballot, candidates: seq<Candidate>, pool: seq<Candidate>)
    requires |candidates| == |Known(prefs)| + |pool|
    ensures Completed(prefs, pool).Ok? <==> |prefs| <= |candidates|
  {
    var h := Holes(prefs);
    assert |Known(prefs)| + h == |prefs|;
    assert Completed(prefs, pool).Ok? <==> h <= |pool|;
  }

  /** A well-formed partial ballot (as many entries as there are
      candidates, the known ones distinct candidates of the situation),
      completed from any shuffle of its missing candidates, becomes a
      ranking of all candidates: a permutation of the candidate list. */
  lemma {:induction false} CompletedPermutes(prefs: Ballot, candidates: seq<Candidate>, pool: seq<Candidate>)
    requires Distinct(candidates) && Distinct(Known(prefs))
    requires forall x :: x in Known(prefs) ==> x in candidates
    requires multiset(pool) == multiset(Missing(candidates, Known(prefs)))
    ensures Completed(prefs, pool).Ok? <==> |prefs| <= |candidates|
    ensures Completed(prefs, pool).Ok? ==> multiset(Completed(prefs, pool).value) == multiset(candidates)
  {
    PoolCompletes(Known(prefs), candidates, pool);
    CompletesIff(prefs, candidates, pool);
    CompletedMultiset(prefs, pool);
  }

  /** `for entry in voter.preferences`: the completion loop, with the
      pool's iterator as the index `used`. */
  method CompleteBallot(prefs: Ballot, pool: seq<Candidate>) returns (r: Result<Ballot>)
    ensures r == Completed(prefs, pool)
  {
    var simulated: Ballot := [];
    var used := 0;
    var i := 0;
    while i < |prefs|
      invariant i <= |prefs| && used == Holes(prefs[..i]) <= |pool|
      invariant simulated == Filled(prefs[..i], pool)
    {
      HolesSnoc(prefs, i);
      if prefs[i] == Unknown {
        if used == |pool| {
          HolesPrefix(prefs, i + 1);
          return Err(StopIteration);
        }
        FilledSnoc(prefs, pool, i);
        simulated := simulated + [pool[used]];
        used := used + 1;
      } else {
        FilledSnoc(prefs, pool, i);
        simulated := simulated + [prefs[i]];
      }
      i := i + 1;
    }
    assert prefs[..i] == prefs;
    simulated := simulated + pool[used..];
    r := Ok(simulated);
  }

  // ---------------------------------------------------------------------
  // One simulation

  /** The shuffled `missing_candidates` of voter v in the k-th simulation. */
  function Pool(candidates: seq<Candidate>, shuffle: Shuffle, k: nat, v: VoterId, prefs: Ballot): seq<Candidate>
  {
    shuffle(k, v, Missing(candidates, Known(prefs)))
  }

  /** Voter v's ballot after the k-th simulation: completed when it holds
      a placeholder, untouched otherwise. */
  function Simulate(candidates: seq<Candidate>, shuffle: Shuffle, k: nat, v: VoterId, prefs: Ballot): Result<Ballot>
  {
    if Unknown in prefs then Completed(prefs, Pool(candidates, shuffle, k, v, prefs)) else Ok(prefs)
  }

  /** The first n voters of the k-th simulated situation. */
  function Simulated(ballots: seq<Ballot>, candidates: seq<Candidate>, shuffle: Shuffle, k: nat, n: nat): (r: Result<seq<Ballot>>)
    requires n <= |ballots|
    ensures r.Ok? ==> |r.value| == n
  {
    if n == 0 then Ok([])
    else match Simulated(ballots, candidates, shuffle, k, n - 1)
      case Err(e) => Err(e)
      case Ok(done) =>
        match Simulate(candidates, shuffle, k, n - 1, ballots[n - 1])
          case Err(e) => Err(e)
          case Ok(b) => Ok(done + [b])
  }

  /** Once a voter's completion has raised, the simulation has raised. */
  lemma {:induction false} SimulatedRaised(ballots: seq<Ballot>, candidates: seq<Candidate>, shuffle: Shuffle, k: nat, n: nat, m: nat)
    requires m <= n <= |ballots| && Simulated(ballots, candidates, shuffle, k, m).Err?
    ensures Simulated(ballots, candidates, shuffle, k, n) == Simulated(ballots, candidates, shuffle, k, m)
    decreases n
  {
    if m < n {
      SimulatedRaised(ballots, candidates, shuffle, k, n - 1, m);
    }
  }

  /** The k-th simulated situation: Err exactly when some voter's
      completion raises; otherwise each voter's ballot is its completion,
      and a voter whose ballot has no placeholder keeps it. */
  lemma {:induction false} SimulatedMeaning(ballots: seq<Ballot>, candidates: seq<Candidate>, shuffle: Shuffle, k: nat, n: nat)
    requires n <= |ballots|
    ensures Simulated(ballots, candidates, shuffle, k, n).Err? <==>
              exists v :: 0 <= v < n && Simulate(candidates, shuffle, k, v, ballots[v]).Err?
    ensures Simulated(ballots, candidates, shuffle, k, n).Ok? ==>
              forall v :: 0 <= v < n ==> Simulate(candidates, shuffle, k, v, ballots[v]) == Ok(Simulated(ballots, candidates, shuffle, k, n).value[v])
    ensures Simulated(ballots, candidates, shuffle, k, n).Ok? ==>
              forall v :: 0 <= v < n && Unknown !in ballots[v] ==> Simulated(ballots, candidates, shuffle, k, n).value[v] == ballots[v]
    decreases n
  {
    if n > 0 {
      SimulatedMeaning(ballots, candidates, shuffle, k, n - 1);
    }
  }

  /** A well-formed partial situation (distinct candidates, each ballot
      as long as the candidate list with distinct known entries taken from
      it) and a shuffle that only reorders: every simulation succeeds and
      every completed ballot ranks all candidates. */
  lemma {:induction false} SimulationRanksAll(ballots: seq<Ballot>, candidates: seq<Candidate>, shuffle: Shuffle, k: nat)
    requires Distinct(candidates)
    requires forall v :: 0 <= v < |ballots| ==> |ballots[v]| == |candidates|
    requires forall v :: 0 <= v < |ballots| ==> Distinct(Known(ballots[v]))
    requires forall v, x :: 0 <= v < |ballots| && x in Known(ballots[v]) ==> x in candidates
    requires forall v: VoterId, m :: multiset(shuffle(k, v, m)) == multiset(m)
    ensures Simulated(ballots, candidates, shuffle, k, |ballots|).Ok?
    ensures forall v :: 0 <= v < |ballots| && Unknown in ballots[v] ==>
              multiset(Simulated(ballots, candidates, shuffle, k, |ballots|).value[v]) == multiset(candidates)
  {
    forall v | 0 <= v < |ballots| && Unknown in ballots[v]
      ensures Simulate(candidates, shuffle, k, v, ballots[v]).Ok?
      ensures multiset(Simulate(candidates, shuffle, k, v, ballots[v]).value) == multiset(candidates)
    {
      var prefs := ballots[v];
      CompletedPermutes(prefs, candidates, Pool(candidates, shuffle, k, v, prefs));
    }
    SimulatedMeaning(ballots, candidates, shuffle, k, |ballots|);
  }

  /** `for voter in sim_situation.voters`: completes the deep copy's
      ballots one voter at a time. */
  method SimulateOnce(ballots: seq<Ballot>, candidates: seq<Candidate>, shuffle: Shuffle, k: nat) returns (r: Result<seq<Ballot>>)
    ensures r == Simulated(ballots, candidates, shuffle, k, |ballots|)
  {
    var sim := ballots;
    var v := 0;
    while v < |sim|
      invariant v <= |sim| == |ballots| && sim[v..] == ballots[v..]
      invariant Simulated(ballots, candidates, shuffle, k, v) == Ok(sim[..v])
    {
      assert sim[v] == ballots[v];
      if Unknown in sim[v] {
        var known := Known(sim[v]);
        var missing := shuffle(k, v, Missing(candidates, known));
        var simulated := CompleteBallot(sim[v], missing);
        if simulated.Err? {
          SimulatedRaised(ballots, candidates, shuffle, k, |ballots|, v + 1);
          return Err(simulated.raised);
        }
        sim := sim[v := simulated.value];
      }
      assert sim[..v + 1] == sim[..v] + [sim[v]];
      v := v + 1;
    }
    assert sim[..v] == sim;
    r := Ok(sim);
  }

  // ---------------------------------------------------------------------
  // The best simulation

  /** The overall happiness of a simulated situation, its ballots taken
      as sincere: ranked metrics score the ranking, the others the winner. */
  function Overall(c: Collaborators, s: VotingScheme, f: HappinessFunc, sim: seq<Ballot>): real
  {
    HappinessOf(c, IsRankedMetric(f), f, s, sim, sim).total
  }

  /** The k-th simulation and its overall happiness. */
  function Scores(c: Collaborators, ballots: seq<Ballot>, candidates: seq<Candidate>, s: VotingScheme,
                  f: HappinessFunc, shuffle: Shuffle, k: nat): Result<Scored>
  {
    match Simulated(ballots, candidates, shuffle, k, |ballots|)
      case Err(e) => Err(e)
      case Ok(sim) => Ok((sim, Overall(c, s, f, sim)))
  }

  /** `range(num_simulations)`: nothing for a count below one. */
  function Runs(numSimulations: int): nat
  {
    if numSimulations < 0 then 0 else numSimulations
  }

  /** The outcomes of all simulations, in order. */
  function Simulations(c: Collaborators, ballots: seq<Ballot>, candidates: seq<Candidate>, s: VotingScheme,
                       f: HappinessFunc, shuffle: Shuffle, numSimulations: int): (outs: seq<Result<Scored>>)
    ensures |outs| == Runs(numSimulations)
  {
    seq(Runs(numSimulations), k requires 0 <= k => Scores(c, ballots, candidates, s, f, shuffle, k))
  }

  /** One step of the selection: a strictly better simulation replaces
      the best so far (None stands for `-inf` and no situation). */
  function Keep(best: Option<Scored>, o: Scored): Option<Scored>
  {
    if best.None? || o.1 > best.value.1 then Some(o) else best
  }

  /** The selection over the simulations run so far. */
  function Best(outs: seq<Result<Scored>>): Result<Option<Scored>>
  {
    if outs == [] then Ok(None)
    else match Best(outs[..|outs| - 1])
      case Err(e) => Err(e)
      case Ok(best) =>
        match outs[|outs| - 1]
          case Err(e) => Err(e)
          case Ok(o) => Ok(Keep(best, o))
  }

  /** Selection after one more simulation. */
  lemma {:induction false} BestNext(outs: seq<Result<Scored>>, k: nat)
    requires k < |outs|
    ensures Best(outs[..k + 1]) == match Best(outs[..k])
              case Err(e) => Err(e)
              case Ok(best) => match outs[k]
                case Err(e) => Err(e)
                case Ok(o) => Ok(Keep(best, o))
  {
    assert outs[..k + 1][..k] == outs[..k];
  }

  /** Once the search has raised, later simulations do not change it. */
  lemma {:induction false} BestRaised(outs: seq<Result<Scored>>, k: nat)
    requires k <= |outs| && Best(outs[..k]).Err?
    ensures Best(outs) == Best(outs[..k])
    decreases |outs|
  {
    if k < |outs| {
      var init := outs[..|outs| - 1];
      assert init[..k] == outs[..k];
      BestRaised(init, k);
    } else {
      assert outs[..k] == outs;
    }
  }

  /** The search raises exactly when some simulation raises, and returns
      no situation exactly when no simulation ran. */
  lemma {:induction false} BestNone(outs: seq<Result<Scored>>)
    ensures Best(outs).Err? <==> exists k :: 0 <= k < |outs| && outs[k].Err?
    ensures Best(outs) == Ok(None) <==> outs == []
    decreases |outs|
  {
    if outs != [] {
      var init := outs[..|outs| - 1];
      BestNone(init);
      forall k | 0 <= k < |outs| - 1 ensures outs[k] == init[k] { }
    }
  }

  /** The selected simulation is the first one with the highest overall
      happiness: it is one of the runs, no run scores higher, and every
      earlier run scores strictly lower. */
  lemma {:induction false} BestFirst(outs: seq<Result<Scored>>)
    requires Best(outs).Ok? && Best(outs).value.Some?
    ensures forall k :: 0 <= k < |outs| ==> outs[k].Ok? && outs[k].value.1 <= Best(outs).value.value.1
    ensures exists k :: 0 <= k < |outs| && outs[k] == Ok(Best(outs).value.value) &&
              forall j :: 0 <= j < k ==> outs[j].value.1 < Best(outs).value.value.1
    decreases |outs|
  {
    var n := |outs| - 1;
    var init := outs[..n];
    var o := outs[n].value;
    var best := Best(init).value;
    var r := Best(outs).value.value;
    if best.None? {
      BestNone(init);
      assert r == o && outs[n] == Ok(r);
    } else {
      BestFirst(init);
      var k :| 0 <= k < |init| && init[k] == Ok(best.value) &&
               forall j :: 0 <= j < k ==> init[j].value.1 < best.value.1;
      if o.1 > best.value.1 {
        assert outs[n] == Ok(r);
        forall j | 0 <= j < n ensures outs[j].value.1 < r.1 {
          assert init[j] == outs[j];
        }
      } else {
        assert outs[k] == Ok(r);
        forall j | 0 <= j < k ensures outs[j].value.1 < r.1 {
          assert init[j] == outs[j];
        }
      }
    }
    forall k | 0 <= k < n ensures outs[k] == init[k] { }
  }

  /** The result of `monte_carlo_best_preferences`. */
  function MonteCarloResult(c: Collaborators, ballots: seq<Ballot>, candidates: seq<Candidate>, s: VotingScheme,
                            numSimulations: int, f: HappinessFunc, shuffle: Shuffle): Result<Option<Scored>>
  {
    Best(Simulations(c, ballots, candidates, s, f, shuffle, numSimulations))
  }

  /** `monte_carlo_best_preferences(situation, voting_scheme,
      num_simulations, happiness_func)`: the best simulated situation and
      its overall happiness, None when no simulation ran. */
  method MonteCarlo(c: Collaborators, ballots: seq<Ballot>, candidates: seq<Candidate>, s: VotingScheme,
                    numSimulations: int, f: HappinessFunc, shuffle: Shuffle) returns (r: Result<Option<Scored>>)
    ensures r == MonteCarloResult(c, ballots, candidates, s, numSimulations, f, shuffle)
  {
    ghost var outs := Simulations(c, ballots, candidates, s, f, shuffle, numSimulations);
    var best: Option<Scored> := None;
    var k := 0;
    while k < numSimulations
      invariant 0 <= k <= Runs(numSimulations)
      invariant Best(outs[..k]) == Ok(best)
    {
      BestNext(outs, k);
      var sim := SimulateOnce(ballots, candidates, shuffle, k);
      if sim.Err? {
        BestRaised(outs, k + 1);
        return Err(sim.raised);
      }
      var overall := Overall(c, s, f, sim.value);
      if best.None? || overall > best.value.1 {
        best := Some((sim.value, overall));
      }
      k := k + 1;
    }
    assert outs[..k] == outs;
    r := Ok(best);
  }
}
