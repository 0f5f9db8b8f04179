/*
 * ATVA4's `analyse_multiple`: the analysis of one situation per
 * repetition, summed into the ATVA4 risk (the largest coalition found,
 * per voter) and the happiness improvement rate.
 */
module Atva4Multiple {
  import opened Common
  import opened Dicts
  import opened Collaborators
  import opened Atva4
  import opened Atva4Search

  /** `max(len(opp['voter_ids']) for opp in opportunities)`. */
  function LongestCoalition(opps: seq<Opportunity>): (r: nat)
    requires opps != []
    ensures exists i :: 0 <= i < |opps| && r == |opps[i].voterIds|
    ensures forall i :: 0 <= i < |opps| ==> |opps[i].voterIds| <= r
  {
    var n := |opps| - 1;
    if n == 0 then |opps[0].voterIds|
    else
      var before := LongestCoalition(opps[..n]);
      assert forall i :: 0 <= i < n ==> opps[..n][i] == opps[i];
      if |opps[n].voterIds| > before then |opps[n].voterIds| else before
  }

  /** `max_coalition` for one analysis: the largest multi-voter
      opportunity, else 1 when a voter can vote strategically alone, else
      0; `max` of no opportunities raises. */
  function MaxCoalition(r: Atva4Report): Result<nat>
  {
    if r.hasMulti then
      if r.multi == [] then Err(ValueError) else Ok(LongestCoalition(r.multi))
    else if r.hasIndividual then Ok(1)
    else Ok(0)
  }

  /** `max((opp['new_total_happiness'] for opp in opportunities),
      default=honest)`: the default only when there is no opportunity. */
  function BestTotal(opps: seq<Opportunity>, default: real): (r: real)
    ensures opps == [] ==> r == default
    ensures opps != [] ==> (exists i :: 0 <= i < |opps| && r == opps[i].newTotal) &&
                           forall i :: 0 <= i < |opps| ==> opps[i].newTotal <= r
  {
    if opps == [] then default
    else
      var n := |opps| - 1;
      if n == 0 then opps[0].newTotal
      else
        var before := BestTotal(opps[..n], default);
        assert forall i :: 0 <= i < n ==> opps[..n][i] == opps[i];
        if opps[n].newTotal > before then opps[n].newTotal else before
  }

  /** A simulation counts as beneficial exactly when some multi-voter
      opportunity beats the honest total happiness. */
  function Beneficial(r: Atva4Report): (b: bool)
    ensures b <==> exists i :: 0 <= i < |r.multi| && r.multi[i].newTotal > r.honestTotal
  {
    BestTotal(r.multi, r.honestTotal) > r.honestTotal
  }

  /** The analysis of each situation, in order. */
  function Analyses(c: Collaborators, sits: seq<seq<Ballot>>, s: VotingScheme, f: HappinessFunc, t: StrategyType,
                    maxVoters: int): (r: seq<Result<Atva4Report>>)
    ensures |r| == |sits| && forall i :: 0 <= i < |sits| ==> r[i] == Analysed(c, sits[i], s, f, t, maxVoters)
  {
    seq(|sits|, i requires 0 <= i < |sits| => Analysed(c, sits[i], s, f, t, maxVoters))
  }

  /** `total_coalition_sum` and `beneficial_simulations` after one more
      analysis; an earlier error stands. */
  function Tally(acc: Result<(nat, nat)>, out: Result<Atva4Report>): Result<(nat, nat)>
  {
    match acc
    case Err(e) => Err(e)
    case Ok((sum, beneficial)) =>
      match out
      case Err(e) => Err(e)
      case Ok(r) =>
        match MaxCoalition(r)
        case Err(e) => Err(e)
        case Ok(m) => Ok((sum + m, if Beneficial(r) then beneficial + 1 else beneficial))
  }

  /** The two sums over a run of analyses; the first that raises makes
      the whole run raise. */
  function Totals(outs: seq<Result<Atva4Report>>): (r: Result<(nat, nat)>)
    ensures r.Ok? ==> r.value.1 <= |outs|
  {
    if outs == [] then Ok((0, 0))
    else Tally(Totals(outs[..|outs| - 1]), outs[|outs| - 1])
  }

  /** `analyse_multiple`'s result. */
  datatype Atva4Result = Atva4Result(risk: real, improvementRate: real)

  /** The risk divides the coalition sum by `num_repetitions *
      num_voters`, the rate the beneficial count by `num_repetitions`,
      both times 100 in floating point taken as exact; a zero divisor
      raises. */
  function Atva4Risk(outs: seq<Result<Atva4Report>>, numRepetitions: int, numVoters: int): Result<Atva4Result>
  {
    match Totals(outs)
    case Err(e) => Err(e)
    case Ok((sum, beneficial)) =>
      if numRepetitions * numVoters == 0 then Err(ZeroDivisionError)
      else Ok(Atva4Result(Percentage(sum, numRepetitions * numVoters), Percentage(beneficial, numRepetitions)))
  }

  /** The situations `sits` stand for the random ones drawn, one per
      repetition. */
  method AnalyseMultiple(c: Collaborators, sits: seq<seq<Ballot>>, numRepetitions: int, numVoters: int,
                         s: VotingScheme, f: HappinessFunc, t: StrategyType, maxVoters: int)
    returns (r: Result<Atva4Result>)
    requires |sits| == if numRepetitions < 0 then 0 else numRepetitions
    ensures r == Atva4Risk(Analyses(c, sits, s, f, t, maxVoters), numRepetitions, numVoters)
  {
    var sum: nat := 0;
    var beneficial: nat := 0;
    ghost var outs := Analyses(c, sits, s, f, t, maxVoters);
    for i := 0 to |sits|
      invariant Totals(outs[..i]) == Ok((sum, beneficial))
    {
      var result := Analyse(c, sits[i], s, f, t, maxVoters);
      var next := Record(result, sum, beneficial);
      TotalsNext(outs, i);
      if next.Err? {
        TotalsRaise(outs, i + 1);
        return Err(next.raised);
      }
      sum, beneficial := next.value.0, next.value.1;
    }
    assert outs[..|sits|] == outs;
    if numRepetitions * numVoters == 0 {
      return Err(ZeroDivisionError);
    }
    return Ok(Atva4Result(Percentage(sum, numRepetitions * numVoters), Percentage(beneficial, numRepetitions)));
  }

  /** The rest of one repetition of `analyse_multiple`: add the
      analysis's coalition size, and one when it is beneficial. */
  method Record(result: Result<Atva4Report>, sum: nat, beneficial: nat) returns (r: Result<(nat, nat)>)
    ensures r == Tally(Ok((sum, beneficial)), result)
  {
    if result.Err? {
      return Err(result.raised);
    }
    var report := result.value;
    var maxCoalition := MaxCoalition(report);
    if maxCoalition.Err? {
      return Err(maxCoalition.raised);
    }
    var total: nat := sum + maxCoalition.value;
    if Beneficial(report) {
      return Ok((total, beneficial + 1));
    }
    return Ok((total, beneficial));
  }

  /** The sums after one more analysis. */
  lemma {:induction false} TotalsNext(outs: seq<Result<Atva4Report>>, i: nat)
    requires i < |outs|
    ensures Totals(outs[..i + 1]) == Tally(Totals(outs[..i]), outs[i])
  {
    assert outs[..i + 1][..i] == outs[..i];
  }

  /** Once a prefix of the analyses raises, the whole run raises the same
      error. */
  lemma {:induction false} TotalsRaise(outs: seq<Result<Atva4Report>>, i: nat)
    requires i <= |outs| && Totals(outs[..i]).Err?
    ensures Totals(outs) == Totals(outs[..i])
    decreases |outs| - i
  {
    if i < |outs| {
      var n := |outs| - 1;
      assert outs[..n][..i] == outs[..i];
      TotalsRaise(outs[..n], i);
    } else {
      assert outs[..i] == outs;
    }
  }

  /** A successful analysis has a coalition size: none exactly when no
      voter has a strategic option, at least 2 when a multi-voter
      opportunity exists, and never more than the voters of the
      situation, nor than `max_strategic_voters` when it is above 1. */
  lemma {:induction false} AnalysedCoalition(c: Collaborators, sincere: seq<Ballot>, s: VotingScheme, f: HappinessFunc, t: StrategyType,
                          maxVoters: int)
    requires Analysed(c, sincere, s, f, t, maxVoters).Ok?
    ensures var r := Analysed(c, sincere, s, f, t, maxVoters).value;
            MaxCoalition(r).Ok? &&
            (MaxCoalition(r).value == 0 <==> !exists v: VoterId :: v < |sincere| && Offers(c, sincere, s, f, t, v) != []) &&
            (r.hasMulti ==> 2 <= MaxCoalition(r).value <= maxVoters) &&
            MaxCoalition(r).value <= |sincere|
  {
    AnalysedHonest(c, sincere, s, f, t, maxVoters);
    AnalysedIndividual(c, sincere, s, f, t, maxVoters);
    AnalysedMulti(c, sincere, s, f, t, maxVoters);
    var r := Analysed(c, sincere, s, f, t, maxVoters).value;
    assert r.hasMulti <==> r.multi != [];
    if r.hasMulti {
      var m := LongestCoalition(r.multi);
      var i :| 0 <= i < |r.multi| && m == |r.multi[i].voterIds|;
      assert r.multi[i] in r.multi;
      assert !r.hasIndividual ==> false by {
        var (w, h) := Evaluate(c, IsRankedMetric(f), f, s, sincere, sincere).value;
        var e := Setting(c, f, s, sincere, h.individual);
        var opts := OptionsUpTo(c, sincere, s, f, t, |sincere|);
        var combos := SizesCombos(opts, sincere, Top(maxVoters, |sincere|));
        var k :| 0 <= k < |combos| && Evaluation(e, combos[k]).Ok? && Evaluation(e, combos[k]).value.Some?;
        ComboShape(opts, sincere, Top(maxVoters, |sincere|), combos[k]);
        var j :| 0 <= j < |combos[k]| && combos[k][j].0 in Keys(opts);
        OptionsGet(c, sincere, s, f, t, |sincere|, combos[k][j].0);
      }
    }
  }

  /** The coalition sum is at most `bound` per analysis when no analysis
      has a larger coalition. */
  lemma {:induction false} TotalsBound(outs: seq<Result<Atva4Report>>, bound: nat)
    requires Totals(outs).Ok?
    requires forall i :: 0 <= i < |outs| && outs[i].Ok? && MaxCoalition(outs[i].value).Ok? ==>
               MaxCoalition(outs[i].value).value <= bound
    ensures Totals(outs).value.0 <= |outs| * bound
    decreases |outs|
  {
    if outs != [] {
      var n := |outs| - 1;
      assert forall i :: 0 <= i < n ==> outs[..n][i] == outs[i];
      TotalsBound(outs[..n], bound);
      MulSucc(n, bound);
    }
  }

  lemma {:induction false} MulSucc(n: nat, b: nat)
    ensures (n + 1) * b == n * b + b
  {
  }

  /** With one situation of `num_voters` ballots per repetition, the
      coalition sizes add up to at most `num_voters` per repetition. */
  lemma {:induction false} SumBound(c: Collaborators, sits: seq<seq<Ballot>>, numVoters: nat,
                                    s: VotingScheme, f: HappinessFunc, t: StrategyType, maxVoters: int)
    requires forall i :: 0 <= i < |sits| ==> |sits[i]| == numVoters
    requires Totals(Analyses(c, sits, s, f, t, maxVoters)).Ok?
    ensures Totals(Analyses(c, sits, s, f, t, maxVoters)).value.0 <= |sits| * numVoters
  {
    var outs := Analyses(c, sits, s, f, t, maxVoters);
    forall i | 0 <= i < |outs| && outs[i].Ok? && MaxCoalition(outs[i].value).Ok?
      ensures MaxCoalition(outs[i].value).value <= numVoters
    {
      AnalysedCoalition(c, sits[i], s, f, t, maxVoters);
    }
    TotalsBound(outs, numVoters);
  }

  /** With one situation of `num_voters` ballots per repetition, both
      percentages lie between 0 and 100; with no repetition or no voter,
      the analysis divides by zero. */
  lemma {:induction false} RiskBounds(c: Collaborators, sits: seq<seq<Ballot>>, numVoters: nat,
                   s: VotingScheme, f: HappinessFunc, t: StrategyType, maxVoters: int)
    requires forall i :: 0 <= i < |sits| ==> |sits[i]| == numVoters
    requires Totals(Analyses(c, sits, s, f, t, maxVoters)).Ok?
    ensures var r := Atva4Risk(Analyses(c, sits, s, f, t, maxVoters), |sits|, numVoters);
            (r.Err? <==> sits == [] || numVoters == 0) &&
            (r.Err? ==> r == Err(ZeroDivisionError)) &&
            (r.Ok? ==> 0.0 <= r.value.risk <= 100.0 && 0.0 <= r.value.improvementRate <= 100.0)
  {
    var outs := Analyses(c, sits, s, f, t, maxVoters);
    SumBound(c, sits, numVoters, s, f, t, maxVoters);
    var d := |sits| * numVoters;
    MulZero(|sits|, numVoters);
    if d != 0 {
      var (sum, beneficial) := Totals(outs).value;
      PercentOrder(sum, d, d);
      PercentOrder(beneficial, |sits|, |sits|);
    }
  }

  lemma {:induction false} MulZero(a: nat, b: nat)
    ensures a * b == 0 <==> a == 0 || b == 0
  {
  }
}
