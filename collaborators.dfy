/** The collaborators the analysers call but whose code is not part of
    this model: the ranking mode of `Schemes.apply_voting_scheme`,
    `Happiness.calculate` / `calculate_ranked`, `Situation.calculate_happiness`
    / `calculate_individual_happiness`, and the strategy searches of
    `Strategies`. Each is an uninterpreted function, passed in as a field
    of `Collaborators`.

    A situation is represented by its voters' ballots, voter i (id i) at
    position i, as `create_situation` numbers them. A candidate is a
    one-character string in the source, so indexing it (`winner[0]`) gives
    the candidate itself. */
module Collaborators {
  import opened Common
  import opened Dicts

  /** What the happiness functions return: the total and the per-voter
      dict. */
  datatype Happy = Happy(total: real, individual: map<VoterId, real>)

  datatype Collaborators = Collaborators(
    /** `apply_voting_scheme(scheme, voters)`: the winner. */
    winner: (VotingScheme, seq<Ballot>) -> Candidate,
    /** `apply_voting_scheme(scheme, voters, return_ranking=True)`. */
    ranking: (VotingScheme, seq<Ballot>) -> seq<Candidate>,
    /** `Happiness.calculate(voters, winner, func)`. */
    calculate: (seq<Ballot>, Candidate, HappinessFunc) -> Happy,
    /** `Happiness.calculate_ranked(voters, ranking, func)`. */
    calculateRanked: (seq<Ballot>, seq<Candidate>, HappinessFunc) -> Happy,
    /** `situation.calculate_happiness(voters, func, scheme)` with the
        situation's own ballots first: happiness and winner. */
    situationHappiness: (seq<Ballot>, seq<Ballot>, HappinessFunc, VotingScheme) -> (Happy, Candidate),
    /** `situation.calculate_individual_happiness(preferences, func, scheme)`. */
    individualHappiness: (seq<Ballot>, Ballot, HappinessFunc, VotingScheme) -> real,
    /** `Strategies.analyse_situation`: per voter, the strategic situations
        found for it. The flag is true for a call passing
        `exhaustive_search=True` and false for one leaving it at its
        default, so the two may run different searches. */
    analyseSituation: (seq<Ballot>, VotingScheme, HappinessFunc, StrategyType, bool) -> Dict<VoterId, seq<seq<Ballot>>>,
    /** `Strategies.get_strategic_preferences_for_voter`. */
    strategicPreferences: (seq<Ballot>, VoterId, VotingScheme, HappinessFunc, StrategyType) -> seq<Ballot>,
    /** `Strategies.apply_all_strategies_to_voter`: per strategy type, the
        voter's alternative ballots. */
    allStrategies: (seq<Ballot>, VoterId, VotingScheme, HappinessFunc) -> Dict<StrategyType, seq<Ballot>>
  )

  /** `d[k]` on a happiness dict: KeyError when `k` is missing. */
  function Index(d: map<VoterId, real>, k: VoterId): (r: Result<real>)
    ensures r.Err? <==> k !in d
    ensures r.Err? ==> r == Err(KeyError)
    ensures r.Ok? ==> r.value == d[k]
  {
    if k in d then Ok(d[k]) else Err(KeyError)
  }

  /** `d.get(k, 0)`. */
  function GetOrZero(d: map<VoterId, real>, k: VoterId): real
  {
    if k in d then d[k] else 0.0
  }

  /** The happiness of an outcome, scored against the ballots `sincere`:
      ranked metrics (Kendall tau, weighted positional) score the whole
      ranking computed on `strategic`, the others its winner. */
  function HappinessOf(c: Collaborators, ranked: bool, f: HappinessFunc, s: VotingScheme,
                       strategic: seq<Ballot>, sincere: seq<Ballot>): Happy
  {
    if ranked then c.calculateRanked(sincere, c.ranking(s, strategic), f)
    else c.calculate(sincere, c.winner(s, strategic), f)
  }

  /** The winner and the happiness of an outcome where the ranked path
      also reads the ranking's first entry (`ranking[0]`), which raises
      IndexError on an empty ranking. */
  function Evaluate(c: Collaborators, ranked: bool, f: HappinessFunc, s: VotingScheme,
                    strategic: seq<Ballot>, sincere: seq<Ballot>): (r: Result<(Candidate, Happy)>)
    ensures r.Err? <==> ranked && c.ranking(s, strategic) == []
    ensures r.Err? ==> r == Err(IndexError)
    ensures r.Ok? ==> r.value.1 == HappinessOf(c, ranked, f, s, strategic, sincere)
    ensures r.Ok? ==> r.value.0 == if ranked then c.ranking(s, strategic)[0] else c.winner(s, strategic)
  {
    if ranked then
      var ranking := c.ranking(s, strategic);
      if ranking == [] then Err(IndexError)
      else Ok((ranking[0], c.calculateRanked(sincere, ranking, f)))
    else
      var w := c.winner(s, strategic);
      Ok((w, c.calculate(sincere, w, f)))
  }

  /** One entry of a strategy list (the dicts built by BTVA and read by
      the coalition analysers). */
  datatype StrategyRecord = StrategyRecord(
    strategy: Ballot,
    strategicWinner: Candidate,
    strategicIndividual: real,
    originalIndividual: real,
    strategicTotal: real,
    originalTotal: real)
}
