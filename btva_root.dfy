/** BTVA.py (the older analyst at the repository root): honest winner and
    happiness from `apply_voting_scheme` and `Happiness.calculate`, then
    the same strict-improvement filter as tva/models/BTVA.py, always on
    the winner path whatever the happiness metric. */
module BtvaRoot {
  import opened Common
  import opened Dicts
  import opened Collaborators
  import opened Btva

  /** The honest happiness: `calculate(voters, original_winner[0], func)`. */
  function HonestHappiness(c: Collaborators, f: HappinessFunc, s: VotingScheme, sincere: seq<Ballot>): Happy
  {
    c.calculate(sincere, c.winner(s, sincere), f)
  }

  /** BTVA.analyse: per voter of the strategy search, the strategies that
      strictly raise its happiness over the honest one. */
  method Analyse(c: Collaborators, f: HappinessFunc, s: VotingScheme, st: StrategyType, sincere: seq<Ballot>)
    returns (r: Result<StrategyDict>)
    ensures r == Analysis(c, false, f, s, sincere, HonestHappiness(c, f, s, sincere), c.analyseSituation(sincere, s, f, st, false))
  {
    var originalWinner := c.winner(s, sincere);
    var base := c.calculate(sincere, originalWinner, f);
    var sits := c.analyseSituation(sincere, s, f, st, false);
    r := AnalysisOf(c, false, f, s, sincere, base, sits);
  }

  // ---------------------------------------------------------------------
  // Properties.

  /** On the winner path a strategy is kept exactly when the strategic
      winner's happiness for the voter, scored on the sincere ballots,
      beats its honest happiness. */
  lemma KeptIffImproves(c: Collaborators, f: HappinessFunc, s: VotingScheme, sincere: seq<Ballot>,
                        v: VoterId, strat: seq<Ballot>)
    requires Consider(c, false, f, s, sincere, HonestHappiness(c, f, s, sincere), v, strat).Ok?
    ensures var h := c.calculate(sincere, c.winner(s, strat), f);
            var base := c.calculate(sincere, c.winner(s, sincere), f);
            Consider(c, false, f, s, sincere, HonestHappiness(c, f, s, sincere), v, strat).value.Some? <==>
              h.individual[v] > base.individual[v]
  {
  }

  /** The ranking mode of the voting schemes plays no part: two
      collaborator sets that differ only there give the same analysis. */
  lemma RankingIrrelevant(c: Collaborators, c': Collaborators, f: HappinessFunc, s: VotingScheme,
                         sincere: seq<Ballot>, base: Happy, sits: Dict<VoterId, seq<seq<Ballot>>>)
    requires c' == c.(ranking := c'.ranking, calculateRanked := c'.calculateRanked)
    ensures Analysis(c, false, f, s, sincere, base, sits) == Analysis(c', false, f, s, sincere, base, sits)
  {
    forall k | 0 <= k < |sits|
      ensures PerVoter(c, false, f, s, sincere, base)(sits[k].0, sits[k].1) ==
              PerVoter(c', false, f, s, sincere, base)(sits[k].0, sits[k].1)
    {
      RecordsRankingIrrelevant(c, c', f, s, sincere, base, sits[k].0, sits[k].1);
    }
    MapValuesCongruent(sits, PerVoter(c, false, f, s, sincere, base), PerVoter(c', false, f, s, sincere, base));
  }

  lemma {:induction false} RecordsRankingIrrelevant(c: Collaborators, c': Collaborators, f: HappinessFunc, s: VotingScheme,
                                                    sincere: seq<Ballot>, base: Happy, v: VoterId, strats: seq<seq<Ballot>>)
    requires c' == c.(ranking := c'.ranking, calculateRanked := c'.calculateRanked)
    ensures Records(c, false, f, s, sincere, base, v, strats) == Records(c', false, f, s, sincere, base, v, strats)
    decreases |strats|
  {
    if strats != [] {
      RecordsRankingIrrelevant(c, c', f, s, sincere, base, v, strats[..|strats| - 1]);
    }
  }
}
