/** tva/models/BTVA.py: the basic tactical-voting analyst. For each voter
    and each strategic situation the strategy search found for it, the
    strategy is kept only when it strictly raises that voter's happiness,
    measured against the sincere ballots; `analyse_multiple` counts the
    repetitions in which some voter has a strategy. */
module Btva {
  import opened Common
  import opened Dicts
  import opened Collaborators

  /** The dict returned by `analyse_single`: voter id -> kept strategies. */
  type StrategyDict = Dict<VoterId, seq<StrategyRecord>>

  /** The test of one strategic situation `strat` for voter `v`: score it
      against the sincere ballots; keep it (as a record) when the voter's
      new happiness is strictly above its honest happiness `base`. Missing
      happiness entries raise KeyError, an empty ranking or a voter id past
      the end of `strat` IndexError. */
  function Consider(c: Collaborators, ranked: bool, f: HappinessFunc, s: VotingScheme, sincere: seq<Ballot>,
                    base: Happy, v: VoterId, strat: seq<Ballot>): Result<Option<StrategyRecord>>
  {
    match Evaluate(c, ranked, f, s, strat, sincere)
    case Err(e) => Err(e)
    case Ok(outcome) =>
      var (w, h) := outcome;
      match Index(h.individual, v)
      case Err(e) => Err(e)
      case Ok(hv) =>
        match Index(base.individual, v)
        case Err(e) => Err(e)
        case Ok(bv) =>
          if hv > bv then
            if v < |strat| then Ok(Some(StrategyRecord(strat[v], w, hv, bv, h.total, base.total)))
            else Err(IndexError)
          else Ok(None)
  }

  /** The list `s_i` of voter `v`: its strategic situations considered in
      order, the improving ones kept. */
  function Records(c: Collaborators, ranked: bool, f: HappinessFunc, s: VotingScheme, sincere: seq<Ballot>,
                   base: Happy, v: VoterId, strats: seq<seq<Ballot>>): Result<seq<StrategyRecord>>
  {
    if strats == [] then Ok([])
    else
      match Records(c, ranked, f, s, sincere, base, v, strats[..|strats| - 1])
      case Err(e) => Err(e)
      case Ok(acc) =>
        match Consider(c, ranked, f, s, sincere, base, v, strats[|strats| - 1])
        case Err(e) => Err(e)
        case Ok(None) => Ok(acc)
        case Ok(Some(rec)) => Ok(acc + [rec])
  }

  /** The list of one voter, as a function of the voter and its situations. */
  function PerVoter(c: Collaborators, ranked: bool, f: HappinessFunc, s: VotingScheme, sincere: seq<Ballot>,
                    base: Happy): (VoterId, seq<seq<Ballot>>) -> Result<seq<StrategyRecord>>
  {
    (v: VoterId, strats: seq<seq<Ballot>>) => Records(c, ranked, f, s, sincere, base, v, strats)
  }

  /** The output dict: `output_dict[voter_id] = s_i` for every entry of
      the search result, in order. */
  function Analysis(c: Collaborators, ranked: bool, f: HappinessFunc, s: VotingScheme, sincere: seq<Ballot>,
                    base: Happy, sits: Dict<VoterId, seq<seq<Ballot>>>): Result<StrategyDict>
  {
    MapValues(sits, PerVoter(c, ranked, f, s, sincere, base))
  }

  /** analyse_single on the situation with sincere ballots `sincere`: the
      honest happiness of the situation, the strategy search, then the
      filter, through the ranking for ranked metrics. */
  method AnalyseSingle(c: Collaborators, f: HappinessFunc, s: VotingScheme, st: StrategyType, sincere: seq<Ballot>)
    returns (r: Result<StrategyDict>)
    ensures r == Analysis(c, IsRankedMetric(f), f, s, sincere, c.situationHappiness(sincere, sincere, f, s).0,
                          c.analyseSituation(sincere, s, f, st, true))
  {
    var ranked := f == WeightedPositional || f == KendallTau;
    var (base, originalWinner) := c.situationHappiness(sincere, sincere, f, s);
    var sits := c.analyseSituation(sincere, s, f, st, true);
    if |sits| == 0 {
      return Ok([]);
    }
    r := AnalysisOf(c, ranked, f, s, sincere, base, sits);
  }

  /** The outer loop of analyse_single: every voter of the search result,
      in order, its list stored under its id. */
  method AnalysisOf(c: Collaborators, ranked: bool, f: HappinessFunc, s: VotingScheme, sincere: seq<Ballot>,
                    base: Happy, sits: Dict<VoterId, seq<seq<Ballot>>>) returns (r: Result<StrategyDict>)
    ensures r == Analysis(c, ranked, f, s, sincere, base, sits)
  {
    ghost var fn := PerVoter(c, ranked, f, s, sincere, base);
    var output: StrategyDict := [];
    for k := 0 to |sits|
      invariant MapValues(sits[..k], fn) == Ok(output)
    {
      var (v, strats) := sits[k];
      var si := RecordsOf(c, ranked, f, s, sincere, base, v, strats);
      assert fn(v, strats) == si;
      if si.Err? {
        MapValuesFailsAt(sits, fn, k);
        return Err(si.raised);
      }
      MapValuesSnoc(sits, fn, k);
      output := Put(output, v, si.value);
    }
    assert sits[..|sits|] == sits;
    return Ok(output);
  }

  /** The inner loop of analyse_single: the strategic situations of one
      voter, each kept when it strictly improves the voter's happiness. */
  method RecordsOf(c: Collaborators, ranked: bool, f: HappinessFunc, s: VotingScheme, sincere: seq<Ballot>,
                   base: Happy, v: VoterId, strats: seq<seq<Ballot>>) returns (r: Result<seq<StrategyRecord>>)
    ensures r == Records(c, ranked, f, s, sincere, base, v, strats)
  {
    var si: seq<StrategyRecord> := [];
    for j := 0 to |strats|
      invariant Records(c, ranked, f, s, sincere, base, v, strats[..j]) == Ok(si)
    {
      assert strats[..j + 1][..j] == strats[..j];
      var kept := Consider(c, ranked, f, s, sincere, base, v, strats[j]);
      if kept.Err? {
        RecordsFailsAt(c, ranked, f, s, sincere, base, v, strats, j);
        return Err(kept.raised);
      }
      if kept.value.Some? {
        si := si + [kept.value.value];
      }
    }
    assert strats[..|strats|] == strats;
    return Ok(si);
  }

  lemma {:induction false} RecordsFailsAt(c: Collaborators, ranked: bool, f: HappinessFunc, s: VotingScheme, sincere: seq<Ballot>,
                                          base: Happy, v: VoterId, strats: seq<seq<Ballot>>, j: nat)
    requires j < |strats| && Records(c, ranked, f, s, sincere, base, v, strats[..j]).Ok?
    requires Consider(c, ranked, f, s, sincere, base, v, strats[j]).Err?
    ensures Records(c, ranked, f, s, sincere, base, v, strats) == Err(Consider(c, ranked, f, s, sincere, base, v, strats[j]).raised)
    decreases |strats|
  {
    if j == |strats| - 1 {
      assert strats[..|strats| - 1] == strats[..j];
    } else {
      assert strats[..|strats| - 1][..j] == strats[..j];
      RecordsFailsAt(c, ranked, f, s, sincere, base, v, strats[..|strats| - 1], j);
    }
  }

  // ---------------------------------------------------------------------
  // analyse_multiple.

  /** Some voter among the first `numVoters` has a strategy in `sit`. */
  predicate HasStrategy(c: Collaborators, sit: seq<Ballot>, numVoters: int, s: VotingScheme, f: HappinessFunc, st: StrategyType)
  {
    exists v :: 0 <= v < numVoters && c.strategicPreferences(sit, v, s, f, st) != []
  }

  /** The number of situations in which some voter has a strategy. */
  function CountWithStrategy(c: Collaborators, sits: seq<seq<Ballot>>, numVoters: int, s: VotingScheme, f: HappinessFunc, st: StrategyType): (n: nat)
    ensures n <= |sits|
  {
    if sits == [] then 0
    else CountWithStrategy(c, sits[..|sits| - 1], numVoters, s, f, st) +
         (if HasStrategy(c, sits[|sits| - 1], numVoters, s, f, st) then 1 else 0)
  }

  /** `(strategy_counter / num_repetitions) * 100`: the percentage of
      repetitions with a strategic voter. `range(num_repetitions)` draws
      one situation per repetition, and none for a negative count; only a
      count of 0 divides by zero, and a negative count gives 0. */
  function Risk(c: Collaborators, sits: seq<seq<Ballot>>, numRepetitions: int, numVoters: int, s: VotingScheme,
                f: HappinessFunc, st: StrategyType): (r: Result<real>)
    requires |sits| == if numRepetitions < 0 then 0 else numRepetitions
    ensures r.Err? <==> numRepetitions == 0
    ensures r.Err? ==> r == Err(ZeroDivisionError)
    ensures r.Ok? ==> 0.0 <= r.value <= 100.0
    ensures numRepetitions < 0 ==> r == Ok(0.0)
  {
    if numRepetitions == 0 then Err(ZeroDivisionError)
    else
      var n := CountWithStrategy(c, sits, numVoters, s, f, st);
      if numRepetitions < 0 then
        assert n == 0;
        Ok(Percentage(n, numRepetitions))
      else
        PercentOrder(n, n, numRepetitions);
        Ok(Percentage(n, numRepetitions))
  }

  /** analyse_multiple: one situation per repetition (the random draws
      `Situation(num_voters, num_candidates)` are the input `sits`); a
      repetition counts once, at its first voter with a strategy. */
  method AnalyseMultiple(c: Collaborators, sits: seq<seq<Ballot>>, numRepetitions: int, numVoters: int,
                         s: VotingScheme, f: HappinessFunc, st: StrategyType)
    returns (r: Result<real>)
    requires |sits| == if numRepetitions < 0 then 0 else numRepetitions
    ensures r == Risk(c, sits, numRepetitions, numVoters, s, f, st)
  {
    var counter := CountStrategic(c, sits, numVoters, s, f, st);
    if numRepetitions == 0 {
      return Err(ZeroDivisionError);
    }
    return Ok(Percentage(counter, numRepetitions));
  }

  /** The loop of analyse_multiple: `strategy_counter`. */
  method CountStrategic(c: Collaborators, sits: seq<seq<Ballot>>, numVoters: int, s: VotingScheme, f: HappinessFunc, st: StrategyType)
    returns (counter: nat)
    ensures counter == CountWithStrategy(c, sits, numVoters, s, f, st)
  {
    counter := 0;
    for i := 0 to |sits|
      invariant counter == CountWithStrategy(c, sits[..i], numVoters, s, f, st)
    {
      assert sits[..i + 1][..i] == sits[..i];
      var found := SomeVoterHasStrategy(c, sits[i], numVoters, s, f, st);
      if found {
        counter := counter + 1;
      }
    }
    assert sits[..|sits|] == sits;
  }

  /** The inner loop of analyse_multiple: the voters 0..num_voters-1 in
      order, stopping at the first with a strategy. */
  method SomeVoterHasStrategy(c: Collaborators, sit: seq<Ballot>, numVoters: int, s: VotingScheme, f: HappinessFunc, st: StrategyType)
    returns (found: bool)
    ensures found <==> HasStrategy(c, sit, numVoters, s, f, st)
  {
    var v := 0;
    while v < numVoters
      invariant v == 0 || v <= numVoters
      invariant forall u :: 0 <= u < v ==> c.strategicPreferences(sit, u, s, f, st) == []
    {
      if c.strategicPreferences(sit, v, s, f, st) != [] {
        return true;
      }
      v := v + 1;
    }
    return false;
  }

  // ---------------------------------------------------------------------
  // Properties.

  /** A strategic situation is considered without error exactly when the
      happiness entries exist (and the ranking, on the ranked path), and
      the voter's ballot exists in it when it is kept; it is kept exactly
      when the voter's happiness, scored on the sincere ballots, strictly
      exceeds its honest happiness; the record holds the voter's strategic
      ballot with the honest values unchanged. */
  lemma ConsiderMeaning(c: Collaborators, ranked: bool, f: HappinessFunc, s: VotingScheme, sincere: seq<Ballot>,
                        base: Happy, v: VoterId, strat: seq<Ballot>)
    ensures var r := Consider(c, ranked, f, s, sincere, base, v, strat);
            var h := HappinessOf(c, ranked, f, s, strat, sincere);
            (r.Ok? <==> (!ranked || c.ranking(s, strat) != []) && v in h.individual && v in base.individual &&
                        (h.individual[v] > base.individual[v] ==> v < |strat|)) &&
            (r.Ok? ==> (r.value.Some? <==> h.individual[v] > base.individual[v])) &&
            (r.Ok? && r.value.Some? ==>
               r.value.value.strategy == strat[v] &&
               r.value.value.strategicIndividual == h.individual[v] &&
               r.value.value.originalIndividual == base.individual[v] &&
               r.value.value.strategicTotal == h.total &&
               r.value.value.originalTotal == base.total)
  {
  }

  /** Every kept record strictly improves on the honest happiness, which
      it carries unchanged, and no more records are kept than situations
      were found. */
  lemma {:induction false} RecordsImprove(c: Collaborators, ranked: bool, f: HappinessFunc, s: VotingScheme, sincere: seq<Ballot>,
                                          base: Happy, v: VoterId, strats: seq<seq<Ballot>>)
    requires Records(c, ranked, f, s, sincere, base, v, strats).Ok?
    ensures var r := Records(c, ranked, f, s, sincere, base, v, strats).value;
            |r| <= |strats| &&
            forall k :: 0 <= k < |r| ==>
              r[k].strategicIndividual > r[k].originalIndividual &&
              v in base.individual && r[k].originalIndividual == base.individual[v] &&
              r[k].originalTotal == base.total
    decreases |strats|
  {
    if strats != [] {
      RecordsImprove(c, ranked, f, s, sincere, base, v, strats[..|strats| - 1]);
      ConsiderMeaning(c, ranked, f, s, sincere, base, v, strats[|strats| - 1]);
    }
  }

  /** Every improving strategic situation is recorded: the filter keeps
      exactly the strict improvements, in their order. */
  lemma {:induction false} RecordsComplete(c: Collaborators, ranked: bool, f: HappinessFunc, s: VotingScheme, sincere: seq<Ballot>,
                                           base: Happy, v: VoterId, strats: seq<seq<Ballot>>, j: nat)
    requires j < |strats| && Records(c, ranked, f, s, sincere, base, v, strats).Ok?
    requires Consider(c, ranked, f, s, sincere, base, v, strats[j]).Ok?
    requires Consider(c, ranked, f, s, sincere, base, v, strats[j]).value.Some?
    ensures Consider(c, ranked, f, s, sincere, base, v, strats[j]).value.value in Records(c, ranked, f, s, sincere, base, v, strats).value
    decreases |strats|
  {
    if j < |strats| - 1 {
      RecordsComplete(c, ranked, f, s, sincere, base, v, strats[..|strats| - 1], j);
    }
  }

  /** When the search result has distinct voter ids, every voter it lists
      gets its own entry, in the same order, holding its filtered list, and
      the output has no other keys. */
  lemma AnalysisEntries(c: Collaborators, ranked: bool, f: HappinessFunc, s: VotingScheme, sincere: seq<Ballot>,
                        base: Happy, sits: Dict<VoterId, seq<seq<Ballot>>>, out: StrategyDict)
    requires KeysDistinct(sits) && Analysis(c, ranked, f, s, sincere, base, sits) == Ok(out)
    ensures |out| == |sits| && Keys(out) == Keys(sits)
    ensures forall k :: 0 <= k < |sits| ==>
              out[k].0 == sits[k].0 && Records(c, ranked, f, s, sincere, base, sits[k].0, sits[k].1) == Ok(out[k].1)
  {
    var fn := PerVoter(c, ranked, f, s, sincere, base);
    MapValuesEntries(sits, fn, out);
    MapValuesKeys(sits, fn);
    forall k | 0 <= k < |sits|
      ensures Records(c, ranked, f, s, sincere, base, sits[k].0, sits[k].1) == Ok(out[k].1)
    {
      assert fn(sits[k].0, sits[k].1) == Ok(out[k].1);
    }
  }

  /** The analysis raises exactly when the list of some voter of the
      search result raises. */
  lemma AnalysisFails(c: Collaborators, ranked: bool, f: HappinessFunc, s: VotingScheme, sincere: seq<Ballot>,
                      base: Happy, sits: Dict<VoterId, seq<seq<Ballot>>>)
    ensures Analysis(c, ranked, f, s, sincere, base, sits).Err? <==>
              exists k :: 0 <= k < |sits| && Records(c, ranked, f, s, sincere, base, sits[k].0, sits[k].1).Err?
  {
    var fn := PerVoter(c, ranked, f, s, sincere, base);
    MapValuesFails(sits, fn);
    assert forall k :: 0 <= k < |sits| ==> fn(sits[k].0, sits[k].1) == Records(c, ranked, f, s, sincere, base, sits[k].0, sits[k].1);
  }

  /** A voter's situation with nothing better than honest voting yields an
      empty list, not a missing entry. */
  lemma {:induction false} NoImprovementNoRecords(c: Collaborators, ranked: bool, f: HappinessFunc, s: VotingScheme, sincere: seq<Ballot>,
                                                  base: Happy, v: VoterId, strats: seq<seq<Ballot>>)
    requires forall j :: 0 <= j < |strats| ==> Consider(c, ranked, f, s, sincere, base, v, strats[j]) == Ok(None)
    ensures Records(c, ranked, f, s, sincere, base, v, strats) == Ok([])
    decreases |strats|
  {
    if strats != [] {
      NoImprovementNoRecords(c, ranked, f, s, sincere, base, v, strats[..|strats| - 1]);
    }
  }
}
