# Tactical-voting analyser, modelled in Dafny

The repository studies tactical voting. An election, or *situation*, is a list of voters. Each voter has a ballot: a preference list over upper-case candidate letters, most preferred first.

- **Voting rules.** A winner is chosen by one of four rules:
  - plurality;
  - vote for two;
  - anti-plurality;
  - Borda.
- **Happiness.** A voter's happiness measures how high the winner sits on its own ballot.
- **Analysers.** Each analyser searches for ballots that a voter, or a group of voters, could cast instead of their sincere one to end up happier:
  - **BTVA** keeps each voter's strategic situations that strictly raise that voter's happiness.
  - **ATVA1** and its older variant **ATVA-1** merge the three strategy kinds into one list per voter (bullet voting, burying and compromising). They group the voters unhappy with the winner by common aims and form coalitions of two or more. They then search the coalitions, largest first, for one whose agreed ballots make every member at least as happy and one member happier.
  - **ATVA2** scores each strategic ballot of a voter against every other voter's best reply.
  - **ATVA-3** fills unknown preferences (`?`) with shuffled candidates. It keeps the simulation with the highest overall happiness.
  - **ATVA4** tries every combination of strategic ballots for every subset of 2 up to `max_strategic_voters` voters. It reports the combinations in which some voter gains. It also summarises the ATVA4 risk over many situations.

## How the model is built

Each Python file is modelled in its own form:

- **Pure computations become total functions.** These include the voting rules, the happiness helpers, the tactical swap, the risk formulas, the coalition formation and the grouping.
- **Errors are values.** A function that the source lets raise returns `Result`, and the `Err` case names the Python exception: `IndexError`, `ValueError`, `KeyError`, `ZeroDivisionError` or `StopIteration`.
- **Loops become methods.** Every loop the source runs is a `method` with a `for` or `while` loop and invariants, proved equal to the function that specifies it.
- **Classes that mutate become Dafny classes.** The classes that update their fields, `Situation`/`Voter` and `Strategies`, are Dafny classes. Their methods have `modifies` clauses.
- **Dicts and lists are sequences.** A Python `dict` is an insertion-ordered sequence of pairs with distinct keys (module `Dicts`). A list is a `seq`. Floating-point values are `real`.
- **Outside code is a parameter.** Code the analysers call but that is not part of this model is a record of functions, `Collaborators.Collaborators`. This covers:
  - `Schemes.apply_voting_scheme`;
  - `Happiness.calculate` and `calculate_ranked`;
  - `Situation.calculate_happiness` and `calculate_individual_happiness`;
  - `Strategies.analyse_situation`, `get_strategic_preferences_for_voter` and `apply_all_strategies_to_voter`.
- **Randomness is an input.** Random draws are inputs:
  - the shuffles of `random.sample`;
  - the strategic ids sampled by `Strategies`;
  - the situations drawn per repetition;
  - the shuffles of ATVA-3.

The properties proved include:

- Each voting rule's winner has the highest reference score, and ties go to the candidate first seen.
- Every strategic move and the tactical swap is a permutation that undoes itself.
- The risk values are bounded.
- The BTVA filter keeps exactly the strict improvements.
- The merge keeps the first occurrence of each ballot.
- The coalitions are exactly the 2-to-`max_size` combinations within a group.
- A reported coalition satisfies the any/all happiness test.
- The grouping lists only dissatisfied voters.
- ATVA-1's move of single voters raises KeyError as written; the corrected move keeps every voter in one group (see Findings).
- ATVA4 tries every combination and reports exactly the beneficial ones, with their gains.
- ATVA2's enemy reply is the first ballot with the highest happiness.
- ATVA-3's completion is a permutation of the candidates.
- ATVA-3 picks the first simulation with the highest overall happiness.

## Model

| member | source | states |
|---|---|---|
| Schemes.PluralityVoting | tva/schemes.py:8-17 | IndexError exactly when some ballot is empty; ValueError exactly when there are no voters; otherwise the winner is some voter's first choice and no candidate has more first-choice votes |
| Schemes.VotingForTwo | tva/schemes.py:20-30 | ValueError exactly when every ballot is empty (or there are no voters); otherwise the winner is among some voter's first two entries and no candidate has more vote-for-two points |
| Schemes.AntiPluralityVoting | tva/schemes.py:33-43 | ValueError exactly when no ballot has more than one entry; otherwise the winner stands before the last entry of some ballot and no candidate has more anti-plurality points |
| Schemes.BordaWinner | tva/schemes.py:46-58 | IndexError exactly when there are no voters, ValueError exactly when every ballot is empty; otherwise the winner is on some ballot and has the highest Borda score (with m taken from the first ballot) among the tally's keys |
| Schemes.BordaVoting | tva/schemes.py:46-58 | the loops of borda_voting compute BordaWinner |
| Schemes.BordaScores | tva/schemes.py:51-55 | the outer Borda loop leaves the tally of every voter's points |
| Schemes.AddBallotPoints | tva/schemes.py:53-55 | the inner Borda loop adds m-1-rank to each candidate of one ballot |
| Schemes.ArgMaxFirst | tva/schemes.py:15 | `max(keys, key=...)` picks a key of highest score with no earlier key as high |
| Schemes.Unit | tva/schemes.py:13 | `Counter` of a list counts each entry once, in order |
| Schemes.BordaVotes | tva/schemes.py:53-55 | the entry at 0-indexed rank r of a ballot gets m-1-r points |
| Schemes.TallyIsSum | tva/schemes.py:13 | an insertion-ordered tally holds, for each candidate, the sum of its increments, and has a key exactly for the candidates incremented |
| Schemes.BallotPointsMatch | tva/schemes.py:11-55 | one ballot's increments give every candidate exactly its reference points for the rule, and name exactly the counted part of the ballot |
| Schemes.TallyMatchesScore | tva/schemes.py:11-55 | the tally each rule builds gives every candidate its reference score, the sum over the voters of its per-ballot points |
| Schemes.TallyKeys | tva/schemes.py:11-55 | the tally has a key exactly for the candidates that some ballot's counted part contains |
| Schemes.ScorePermutationInvariant | tva/schemes.py:11-55 | reordering the voters does not change any candidate's score |
| Schemes.TallyPermutationInvariant | tva/schemes.py:11-55 | reordering the voters changes neither the tally's scores nor its key set |
| Schemes.KeysInFirstAppearanceOrder | tva/schemes.py:13 | the tally's keys are candidates of the scan, in the order of their first appearance |
| Schemes.MaxKeyIsFirstMaximal | tva/schemes.py:15 | `max(tally, key=tally.get)` returns a key with the highest score, inserted before every other key with that score |
| Schemes.TieBreakByFirstAppearance | tva/schemes.py:15 | every rule's winner has the highest score, and any other candidate with the same score appeared later in the ballot scan |
| Schemes.WinnerMissing | tva/schemes.py:15 | `max` raises ValueError exactly when no ballot had anything counted |
| Schemes.WinnerFacts | tva/schemes.py:15 | the winner was counted on some ballot and has the highest score among the tally's keys; for plurality, vote-for-two and anti-plurality, among all candidates |
| Schemes.CountNonNegative | tva/schemes.py:11-43 | the counting rules never give a negative score |
| Schemes.BordaPointsOfRank | tva/schemes.py:53-55 | on a ballot without repeats, the candidate at 0-indexed rank r gets m-1-r Borda points and an absent candidate none |
| Schemes.LastEverywhereNeverWins | tva/schemes.py:33-43 | a candidate ranked last by every voter gets no anti-plurality point and never wins |
| Schemes.PluralityTieGoesToFirstSeen | tva/schemes.py:8-17 | one voter for B then one for A: B wins, so ties go to the first candidate seen, not the alphabetical one |
| Schemes.CyclicScores | tva/schemes.py:46-58 | in the cyclic profile ABCD, BCDA, CDAB, DABC every candidate scores 6 Borda points |
| Schemes.CyclicBordaTie | tva/schemes.py:46-58 | in that cyclic profile the first voter's top choice A wins the four-way tie |
| Schemes.FirstKeyIsFirstVote | tva/schemes.py:13 | the first key of a tally is the candidate of the first increment |
| Happiness.Rank | tva/happiness.py:24 | `index(winner) + 1`: ValueError exactly when the winner is not on the ballot, otherwise the 1-indexed position of its first occurrence |
| Happiness.BordaHappiness | tva/happiness.py:52-61 | ValueError exactly when the winner is not on the ballot; otherwise a value in [0, 1], 1 when the winner is the first choice |
| Happiness.VoteForTwoHappiness | tva/happiness.py:38-50 | IndexError exactly on an empty ballot; otherwise 0.7, 0.3 or 0.0 |
| Happiness.RankOfPosition | tva/happiness.py:24 | on a ballot without repeats the entry at position i has rank i+1 |
| Happiness.BordaHappinessDecreasesWithRank | tva/happiness.py:52-61 | on a ballot without repeats, linear happiness strictly decreases as the winner sits lower |
| Happiness.BordaHappinessAt | tva/happiness.py:52-61 | on a ballot without repeats, the entry at position k gives (c-1-k)/(c-1) |
| Happiness.BordaHappinessIsNormalisedPoints | tva/happiness.py:52-61 | linear happiness is the winner's Borda points on the voter's own ballot divided by the top score |
| Happiness.VoteForTwoByRank | tva/happiness.py:38-50 | vote-for-two happiness by rank: 0.7 for rank 1, 0.3 for rank 2, 0.0 for lower ranks or a winner not on the ballot |
| Happiness.VoteForTwoHappyIffCounted | tva/happiness.py:38-50 | the voter has positive vote-for-two happiness exactly when its ballot gives the winner a vote-for-two point |
| Situation.CreateCandidates | tva/situation.py:25-29 | the first min(max(n, 0), 26) upper-case letters, in increasing order |
| Situation.CandidatesGrow | tva/situation.py:25-29 | the labels of a smaller election are a prefix of those of a larger one |
| Situation.CandidatesDistinct | tva/situation.py:25-29 | the labels never repeat |
| Situation.Voter.constructor | tva/voter.py:4-11 | a voter holds its id and the shuffle of the candidates drawn for it |
| Situation.Situation.constructor | tva/situation.py:7-11 | the candidates are CreateCandidates(num_candidates), and there is one fresh voter per index with id i and the i-th shuffle |
| Situation.Situation.CreateSituation | tva/situation.py:13-23 | max(num_voters, 0) fresh voters, voter i with id i and the i-th shuffle, and the matrix lists their ballots |
| Situation.ShuffledBallotsAreDistinct | tva/situation.py:17-21 | when a shuffle permutes the candidates, the voter's ballot lists each candidate exactly once |
| Strategies.MoveBallot | tva/strategies.py:15-27 | IndexError exactly for a ballot shorter than two; otherwise compromising swaps the first two entries and burying the last two |
| Strategies.MovePermutes | tva/strategies.py:15-27 | a move only reorders the ballot |
| Strategies.MoveTwiceRestores | tva/strategies.py:15-27 | applying a move twice gives the ballot back |
| Strategies.Halt | tva/strategies.py:17-27 | the pass stops at the first strategic voter whose ballot is too short, or at the end |
| Strategies.AfterMove | tva/strategies.py:17-27 | after a pass, non-strategic ballots and ballots from the halting position on are unchanged, and every ballot keeps its length |
| Strategies.AfterMovePermutes | tva/strategies.py:17-27 | a pass leaves every ballot a permutation of itself |
| Strategies.AfterMoveTwiceRestores | tva/strategies.py:17-27 | a completed pass, applied again, completes and restores every ballot |
| Strategies.Strategies.constructor | tva/strategies.py:8-12 | the strategies hold the voters and the sampled strategic ids |
| Strategies.Strategies.ApplyMove | tva/strategies.py:17-27 | the in-place loop completes exactly when no strategic ballot is too short, keeps the ids, and leaves the ballots AfterMove describes |
| Strategies.Strategies.Compromising | tva/strategies.py:15-20 | compromising leaves the ballots of AfterMove for the compromise swap, and completes exactly when no strategic ballot is too short |
| Strategies.Strategies.Burying | tva/strategies.py:22-27 | burying leaves the ballots of AfterMove for the burying swap, and completes exactly when no strategic ballot is too short |
| Strategies.TacticalSwap | tva/strategies.py:92-98 | IndexError exactly for an empty ballot; otherwise entries 0 and 2 are swapped when there are more than two, else entries 0 and -1 |
| Strategies.TacticalSwapPermutes | tva/strategies.py:92-98 | the tactical swap only reorders the ballot |
| Strategies.TacticalSwapTwiceRestores | tva/strategies.py:92-98 | the tactical swap undoes itself |
| Strategies.Lookup | tva/strategies.py:115-116 | `dict.get(k, None)`: a value exactly when the key is present, and then its value |
| Strategies.OptionFor | tva/strategies.py:86-120 | with the scheme methods as oracle parameters: IndexError exactly for an empty ballot; otherwise the option carries the swapped ballot, the outcome of the copied electorate with that ballot, the voter's happiness and the overall happiness scored on that electorate and outcome, and the baseline happiness of the voter and overall |
| Strategies.OptionsOf | tva/strategies.py:84-120 | one voter's options fail exactly when there is a scheme and its ballot is empty; otherwise there is one entry per listed scheme, and each entry is the option OptionFor computes for its scheme |
| Strategies.AllOptions | tva/strategies.py:82-123 | one dict per voter: empty for a non-strategic voter, and the voter's options for a strategic one |
| Strategies.AllOptionsFails | tva/strategies.py:82-123 | get_strategic_options raises exactly when some strategic voter has an empty ballot and there is a scheme to try |
| Strategies.OptionIsPermutation | tva/strategies.py:86-110 | an option's ballot permutes the voter's sincere ballot, and the electorate it is scored on differs from the original only in that voter |
| Strategies.Strategies.GetStrategicOptions | tva/strategies.py:29-123 | the method computes AllOptions over the matrix |
| Strategies.OriginalResults | tva/strategies.py:69-80 | the baseline dict has exactly the listed schemes, each with its baseline outcome and happiness |
| Strategies.VoterOptionsFor | tva/strategies.py:84-120 | the per-scheme loop for one voter computes OptionsOf |
| Strategies.OptionRisk | tva/strategies.py:143-151 | ZeroDivisionError exactly when H = 0; any error exactly when H = 0 or a voter happiness is missing; otherwise a non-negative risk |
| Strategies.OptionRiskAtMost | tva/strategies.py:143-151 | with non-negative happiness values, one option's risk is at most 0.6 |
| Strategies.Clamp | tva/strategies.py:145 | `max(0, x)` is non-negative and is either 0 or x |
| Strategies.RiskValues | tva/strategies.py:141-152 | one non-negative risk per option, all voters' options in order |
| Strategies.RiskList | tva/strategies.py:142-152 | one non-negative risk per option of one voter's dict |
| Strategies.VotersWithOptions | tva/strategies.py:159 | no more voters with options than voters |
| Strategies.RiskNonNegative | tva/strategies.py:154-161 | the overall risk is never negative for a positive number of voters |
| Strategies.RiskWithoutOptions | tva/strategies.py:154-161 | without any option the risk is 0 |
| Strategies.StrategicRiskOk | tva/strategies.py:125-161 | compute_strategic_risk raises nothing exactly when the voter count is non-zero and every option is well-formed: H non-zero, the voter's original happiness present, and its modified happiness present whenever the original is non-zero |
| Strategies.RiskValuesOk | tva/strategies.py:141-152 | the risk values raise nothing exactly when every option is well-formed |
| Strategies.Strategies.ComputeStrategicRisk | tva/strategies.py:125-161 | the method computes StrategicRisk |
| Strategies.AppendRisks | tva/strategies.py:142-152 | the inner loop appends the risks of one voter's options, or raises that list's error |
| Btva.AnalyseSingle | tva/models/BTVA.py:28-76 | analyse_single computes Analysis over the honest happiness of the sincere situation and the strategy search run with `exhaustive_search=True` |
| Btva.AnalysisOf | tva/models/BTVA.py:47-71 | the outer loop stores every voter's filtered list under its id |
| Btva.RecordsOf | tva/models/BTVA.py:49-69 | the inner loop keeps each strategic situation that strictly improves the voter's happiness |
| Btva.ConsiderMeaning | tva/models/BTVA.py:52-69 | a strategic situation is considered without error exactly when its happiness entries exist (and its ranking, on the ranked path); it is kept exactly when the strategic happiness beats the honest one |
| Btva.RecordsImprove | tva/models/BTVA.py:61-69 | every kept record strictly improves on the honest happiness, which it carries unchanged, and there are no more records than situations |
| Btva.RecordsComplete | tva/models/BTVA.py:61-69 | every improving strategic situation is recorded |
| Btva.AnalysisEntries | tva/models/BTVA.py:47-71 | with distinct voter ids, every voter listed by the search gets its own entry, in the same order, holding its filtered list |
| Btva.AnalysisFails | tva/models/BTVA.py:47-71 | the analysis raises exactly when some voter's list raises |
| Btva.NoImprovementNoRecords | tva/models/BTVA.py:61-71 | a voter with nothing better than honest voting gets an empty list, not a missing entry |
| Btva.CountWithStrategy | tva/models/BTVA.py:85-92 | no more strategic situations are counted than situations were drawn |
| Btva.Risk | tva/models/BTVA.py:86-100 | with one drawn situation per repetition: ZeroDivisionError exactly when `num_repetitions` is 0; a negative count draws nothing and gives 0; otherwise a percentage in [0, 100] |
| Btva.AnalyseMultiple | tva/models/BTVA.py:78-100 | given one drawn situation per repetition (none for a negative count), analyse_multiple computes Risk over them and `num_repetitions` |
| Btva.CountStrategic | tva/models/BTVA.py:85-92 | the repetition loop counts the situations in which some voter has a strategy |
| Btva.SomeVoterHasStrategy | tva/models/BTVA.py:89-92 | the voter loop finds a strategy exactly when some voter below num_voters has one |
| BtvaRoot.Analyse | BTVA.py:29-62 | analyse computes the BTVA filter over the winner path, against the honest happiness of the first-ranked winner, on the strategy search run with its flag at the default |
| BtvaRoot.KeptIffImproves | BTVA.py:43-60 | a strategy is kept exactly when its winner's happiness for the voter, scored on the sincere ballots, beats the honest one |
| BtvaRoot.RankingIrrelevant | BTVA.py:29-62 | the ranking mode of the voting schemes plays no part in the analysis |
| Coalitions.Tagged | tva/models/ATVA1.py:18-21 | every element paired with one key, in order: a voter's strategies tagged with the voter here, and the combinations of a group tagged with its key in `AppendTagged` (ATVA1.py:84-85) |
| Coalitions.NonEmptyEntries | tva/models/ATVA1.py:26 | the comprehension keeps exactly the entries whose list is non-empty |
| Coalitions.MergeStrategies | tva/models/ATVA1.py:15-31 | the merge loops compute MergeOf over bury, bullet and compromise |
| Coalitions.MergeDict | tva/models/ATVA1.py:18-25 | the loop over one strategy dict keeps the keys distinct and merges its entries in order |
| Coalitions.MergeVoter | tva/models/ATVA1.py:19-25 | the loop over one voter's strategies keeps the keys distinct and adds each ballot not yet merged |
| Coalitions.MergeLists | tva/models/ATVA1.py:15-31 | a voter's merged list is its bury, then bullet, then compromise strategies with repeated ballots dropped; a voter is listed exactly when it has a strategy; voter_indexes are the merged keys in order |
| Coalitions.MergeFirstOccurrences | tva/models/ATVA1.py:20-25 | no merged list repeats a ballot, and each kept strategy is the first one with its ballot |
| Coalitions.MergeNotEnough | tva/models/ATVA1.py:29-31 | the merge reports too few voters exactly when fewer than two voters have a strategy |
| Coalitions.MergedVoters | tva/models/ATVA1.py:16-27 | the merged voters are exactly the voters with a strategy |
| Coalitions.MergeAllAppend | tva/models/ATVA1.py:17-25 | merging two runs of strategies is merging the first, then the second into the result |
| Coalitions.AddIfNewStep | tva/models/ATVA1.py:22-25 | one merge step keeps the keys distinct and adds the strategy's ballot to the voter's ballots |
| Coalitions.MergeAllList | tva/models/ATVA1.py:17-25 | a voter's merged list is its old list extended by its new strategies, with repeated ballots skipped |
| Coalitions.MergeKeys | tva/models/ATVA1.py:16-26 | a voter is merged exactly when it has a strategy in one of the dicts |
| Coalitions.DedupBallots | tva/models/ATVA1.py:20-25 | after deduplication the ballots are those of both lists |
| Coalitions.DedupDistinct | tva/models/ATVA1.py:20-25 | deduplication never repeats a ballot |
| Coalitions.DedupFirst | tva/models/ATVA1.py:20-25 | each kept strategy is the first one in the list with its ballot |
| Coalitions.AppendList | tva/models/ATVA1.py:16-25 | `defaultdict(list)` append grows exactly the list under the key, by the value |
| Coalitions.FormVoterPairs | tva/models/ATVA1.py:78-86 | the loops compute Pairs of the groups and the maximum size |
| Coalitions.AppendSizes | tva/models/ATVA1.py:83-85 | the size loop appends the tagged combinations of every size from 2 below the bound |
| Coalitions.AppendTagged | tva/models/ATVA1.py:84-85 | the combination loop appends every combination, tagged with the key |
| Coalitions.PairsMeaning | tva/models/ATVA1.py:78-86 | a tagged coalition is formed exactly when it is a combination of 2 up to max_size voters of a group of two or more, tagged with that group's key |
| Coalitions.GroupMeaning | tva/models/ATVA1.py:80-85 | one group yields exactly its combinations of the allowed sizes |
| Coalitions.SizesMeaning | tva/models/ATVA1.py:83-85 | the sizes loop yields exactly the combinations of sizes 2 up to the bound |
| Coalitions.CombinationsFit | tva/models/ATVA1.py:84 | a combination never has more entries than the list it is drawn from |
| Coalitions.FirstAimed | tva/models/ATVA1.py:176-180 | the scan stops at the first strategy that opens with the aim and holds the winner in its lower half; IndexError when an empty strategy ballot is reached first |
| Coalitions.SelectBestStrategy | tva/models/ATVA1.py:168-183 | the loops compute Selection |
| Coalitions.ScanStrategies | tva/models/ATVA1.py:176-180 | the loop over one voter's strategies computes Pick |
| Coalitions.FirstAimedRaises | tva/models/ATVA1.py:176-180 | the scan raises exactly when it reaches an empty ballot |
| Coalitions.PickAtEmpty | tva/models/ATVA1.py:178 | an empty ballot that no earlier aimed strategy precedes raises IndexError |
| Coalitions.PickAtAimed | tva/models/ATVA1.py:178-180 | the scan picks the first aimed strategy |
| Coalitions.PickNone | tva/models/ATVA1.py:176-180 | a scan meeting neither an empty nor an aimed strategy picks nothing |
| Coalitions.SelectionFailsAt | tva/models/ATVA1.py:173-180 | a raise ends the selection |
| Coalitions.SelectionMeaning | tva/models/ATVA1.py:168-183 | a successful selection has distinct keys, holds exactly the coalition's voters with a strategy list for which the scan picks something, and each with the strategy picked |
| Coalitions.Members | tva/models/ATVA1.py:104 | the filtered tuple holds exactly the coalition's voters that were selected, in order |
| Coalitions.FilterMembers | tva/models/ATVA1.py:104 | the comprehension computes Members |
| Coalitions.SortLargestFirst | tva/models/ATVA1.py:92 | the sort puts larger coalitions first |
| Coalitions.SortPermutes | tva/models/ATVA1.py:92 | the sort only reorders the coalitions |
| Coalitions.SortStable | tva/models/ATVA1.py:92 | coalitions of equal size keep their order |
| Coalitions.Gains | tva/models/ATVA1.py:124 | each member's gain is its new happiness (0 when missing) minus its original happiness |
| Coalitions.TotalGain | tva/models/ATVA1.py:125 | the change in total happiness exists exactly when the honest total is given, and adds to the honest total to give the new total |
| Coalitions.OverwriteBallots | tva/models/ATVA1.py:114-115 | the member loop computes Overwrite |
| Coalitions.OverwriteMeaning | tva/models/ATVA1.py:100-115 | the copy keeps every non-member's ballot and gives each member its selected strategy |
| Coalitions.OverwriteFails | tva/models/ATVA1.py:114-115 | the copy raises exactly when a member's id is past the last ballot |
| Coalitions.OverwriteFailsAt | tva/models/ATVA1.py:114-115 | a raise ends the member loop |
| Coalitions.VoterDictGet | tva/models/ATVA1.py:130-147 | `{voter: f(voter) for voter in voters}` has f(v) for exactly the listed voters |
| Coalitions.SelectedHaveStrategies | tva/models/ATVA1.py:101-124 | a selected voter has a non-empty strategy list and an aimed selected strategy, so `strategies[voter][0]` exists |
| Coalitions.SearchCoalitions | tva/models/ATVA1.py:99-165 | the loop of collude computes Search over the coalitions |
| Coalitions.SearchFound | tva/models/ATVA1.py:99-163 | a reported coalition has more than one member, the honest winner, each member's original happiness, no member worse off and one better off, and every member casting a strategy that opens with a shared aim and keeps the winner in its lower half |
| Coalitions.SearchFoundFrom | tva/models/ATVA1.py:99-163 | the reported coalition is drawn from one of the coalitions searched, and its change in total happiness is measured against the honest total |
| Coalitions.HappinessByMember | tva/models/ATVA1.py:126-127 | happiness_valid, over the members: one member strictly better off and none worse off |
| Coalitions.ReportEntries | tva/models/ATVA1.py:130-147 | the report holds, for each member, its original happiness, its new happiness and its selected strategy |
| Coalitions.ActionEntry | tva/models/ATVA1.py:144-147 | a member's recorded action is its selected strategy |
| Coalitions.MembersFor | tva/models/ATVA1.py:101-104 | the members left after one coalition's selection belong to that coalition |
| Coalitions.SearchNone | tva/models/ATVA1.py:99-165 | a search that finds nothing selected every coalition without raising, and rejected each coalition whose members it evaluated first |
| Coalitions.SearchNoneLater | tva/models/ATVA1.py:106-165 | a later coalition evaluated first in the rest of the search is evaluated first in the whole |
| Atva1.DissatisfiedVoters | tva/models/ATVA1.py:38 | the comprehension loop computes the dissatisfied voters |
| Atva1.DissatisfiedFails | tva/models/ATVA1.py:38 | the comprehension raises exactly when some ballot is empty (`p.preferences[0]`) |
| Atva1.DissatisfiedEntries | tva/models/ATVA1.py:38 | otherwise it holds each voter with strategies whose first choice is not the winner, once, with its ballot |
| Atva1.JoinMatching | tva/models/ATVA1.py:44-47 | the voter is appended to every existing group whose key is among its first two choices; the groups keep their keys and order |
| Atva1.JoinExisting | tva/models/ATVA1.py:43-47 | the inner loop computes JoinMatching and whether some group matched |
| Atva1.JoinMatchingList | tva/models/ATVA1.py:44-47 | joining keeps the keys and grows exactly the lists of the matching keys, by the voter |
| Atva1.JoinMatchingInside | tva/models/ATVA1.py:44-47 | joining keeps every list non-empty and every listed voter among the joining voters |
| Atva1.JoinMeaning | tva/models/ATVA1.py:42-51 | one voter's join raises exactly when no group matches and its ballot is shorter than two; otherwise the keys stay distinct |
| Atva1.FoundList | tva/models/ATVA1.py:48-51 | founding puts the voter under its first choice, and under its second unless that is the winner |
| Atva1.JoinAllInside | tva/models/ATVA1.py:42-51 | the join loop cannot raise when every ballot has two entries, and keeps the keys distinct, the lists non-empty and every listed voter among the joining ones |
| Atva1.SinglesOf | tva/models/ATVA1.py:57 | the single-voter groups are groups with one voter |
| Atva1.SinglesMeaning | tva/models/ATVA1.py:57 | the single-voter groups are exactly the keys whose list has one voter, each once |
| Atva1.AimsMeaning | tva/models/ATVA1.py:59 | the aims are exactly the keys whose list has two voters or more, each once |
| Atva1.RanksAbove | tva/models/ATVA1.py:70 | ValueError exactly when the aim or the winner is missing from the ballot; otherwise whether the aim stands above the winner |
| Atva1.MoveToAims | tva/models/ATVA1.py:69-71 | the aims loop for one single voter computes MoveTo |
| Atva1.MoveToFails | tva/models/ATVA1.py:69-71 | the aims loop raises exactly when some aim or the winner is missing from the ballot |
| Atva1.MoveToKeys | tva/models/ATVA1.py:69-71 | the aims loop keeps the keys distinct; its keys are the old ones and the aims ranked above the winner |
| Atva1.MoveToInside | tva/models/ATVA1.py:69-71 | the aims loop keeps every listed voter among the grouped voters |
| Atva1.MoveToList | tva/models/ATVA1.py:69-71 | the aims loop appends the voter once under each aim it ranks above the winner and leaves every other list alone |
| Atva1.MoveSingleStep | tva/models/ATVA1.py:65-72 | one single-voter group: its key is deleted and its voter appended to each aim it prefers to the winner |
| Atva1.MoveSinglesList | tva/models/ATVA1.py:65-72 | the singles loop deletes exactly the single-voter groups, appends to each aim the movers preferring it to the winner, and leaves every other group alone |
| Atva1.MoveSinglesInside | tva/models/ATVA1.py:65-72 | the singles loop keeps every listed voter among the grouped voters |
| Atva1.MoveSinglesFails | tva/models/ATVA1.py:65-72 | the singles loop raises exactly when some single voter's ballot lacks the winner or an aim |
| Atva1.GroupVotersByPreferences | tva/models/ATVA1.py:34-74 | the loops of the grouping compute Grouping |
| Atva1.DissatisfiedSet | tva/models/ATVA1.py:38 | exactly the voters with strategies whose first choice is not the winner |
| Atva1.JoinedGroups | tva/models/ATVA1.py:42-51 | the joined groups have distinct keys and non-empty lists of dissatisfied voters |
| Atva1.MovedLonger | tva/models/ATVA1.py:69-71 | moving voters in only lengthens a list |
| Atva1.SurvivorsLarge | tva/models/ATVA1.py:57-72 | after the singles loop every remaining group has two voters or more, under distinct keys |
| Atva1.GroupingMeaning | tva/models/ATVA1.py:34-74 | every group returned has two voters or more, all dissatisfied, under distinct keys |
| Atva1.ColludeCoalitions | tva/models/ATVA1.py:89-165 | collude computes the search over the coalitions sorted largest first, against the honest ranking's winner |
| Atva1.ColludeFound | tva/models/ATVA1.py:89-163 | a reported coalition is valid against the honest winner `rank[0][0]`, and its total_happiness_gain is its new total less the honest one |
| Atva1.ColludeFrom | tva/models/ATVA1.py:89-163 | the reported coalition is drawn from one of the coalitions |
| Atva1.ColludeNone | tva/models/ATVA1.py:89-165 | when nothing is found, every coalition selected without raising and each coalition first evaluated, largest first, was rejected |
| Atva1.ColludeEmpty | tva/models/ATVA1.py:89-170 | with no coalition collude reports nothing; with no honest ranking any coalition raises IndexError |
| Atva1.ColludersDissatisfied | tva/models/ATVA1.py:34-165 | every voter of a coalition found among the grouping's pairs is dissatisfied with the winner the grouping used |
| Atva1.FindCollusion | tva/models/ATVA1.py:191-204 | the loop body computes CollusionIn: the three analyses, the merge, the grouping, the pairs and collude |
| Atva1.CollusionFound | tva/models/ATVA1.py:191-208 | a coalition found in a situation is valid against the honest ranking's winner, has two members or more, each sincerely preferring another candidate to the honest winner, and its gain is measured against the honest total |
| Atva1.CollusionAmongFound | tva/models/ATVA1.py:198-204 | the same facts, given the merged strategies |
| Atva1.Outcomes | tva/models/ATVA1.py:189-204 | one outcome per situation, in order |
| Atva1.Counts | tva/models/ATVA1.py:186-209 | the happiness-gain count never exceeds the coalition count, which never exceeds the number of situations |
| Atva1.Tally | tva/models/ATVA1.py:206-209 | one more situation adds at most one to each count and keeps the gain count within the coalition count |
| Atva1.AnalyseMultipleAtva | tva/models/ATVA1.py:184-218 | analyse_multiple_ATVA computes the two percentages over the outcomes |
| Atva1.CountsRaise | tva/models/ATVA1.py:189-209 | once a prefix of the situations raises, the whole count raises the same error |
| Atva1.CountsStep | tva/models/ATVA1.py:206-209 | a situation with a coalition adds one to the first count, and one to the second when it raises the total happiness |
| Atva1.CountsRaiseAt | tva/models/ATVA1.py:189-209 | the first situation that raises decides the whole count |
| Atva1.CountsOk | tva/models/ATVA1.py:189-209 | the count raises nothing exactly when no situation raises |
| Atva1.RiskBounds | tva/models/ATVA1.py:212-213 | with one situation per repetition: ZeroDivisionError exactly with no repetitions; otherwise 0 <= happiness_improvement <= atva1_risk <= 100 |
| AtvaLegacy.FirstMatchingMeaning | tva/models/ATVA-1.py:51-55 | the scan finds nothing exactly when no group aims at one of the voter's top two; otherwise it finds the first such group in insertion order |
| AtvaLegacy.JoinFirst | tva/models/ATVA-1.py:50-55 | the voter is added exactly when a group matches, and then only to the first matching group |
| AtvaLegacy.JoinAllOnce | tva/models/ATVA-1.py:49-57 | the join never raises and puts every dissatisfied voter into exactly one group, once, under distinct keys |
| AtvaLegacy.JoinedOnce | tva/models/ATVA-1.py:45-57 | after the join each dissatisfied voter, and no other voter, is in exactly one group |
| AtvaLegacy.AboveAims | tva/models/ATVA-1.py:77-78 | the aims kept are exactly those the voter ranks above the winner |
| AtvaLegacy.MoveAndDeleteMeaning | tva/models/ATVA-1.py:74-80 | as written: with no preferred aim the groups are unchanged; with one, the voter moves there and its group is deleted; with two or more, the second `del` raises KeyError |
| AtvaLegacy.MoveAndDeleteShape | tva/models/ATVA-1.py:77-80 | as written: a move that does not raise leaves the groups as they were or moves the voter to one aim and deletes its group |
| AtvaLegacy.MoveFirstMeaning | tva/models/ATVA-1.py:74-80 | corrected: the step never raises; with no preferred aim the groups are unchanged, otherwise the voter moves to the first preferred aim and its group is deleted once |
| AtvaLegacy.MoveFirstShape | tva/models/ATVA-1.py:77-80 | corrected: a move that does not raise leaves the groups as they were or moves the voter to one aim and deletes its group |
| AtvaLegacy.MoveFirstLists | tva/models/ATVA-1.py:77-80 | corrected: when the voter prefers some aim, the step empties its own group, appends it to the first preferred aim and leaves every other group as it was |
| AtvaLegacy.MoveVoter | tva/models/ATVA-1.py:75-80 | the loop over the aims computes the corrected step |
| AtvaLegacy.MoveStepOnce | tva/models/ATVA-1.py:79-80 | moving a single voter to another group and deleting its own group keeps every voter in exactly one group |
| AtvaLegacy.StepList | tva/models/ATVA-1.py:79-80 | the move gives the target group the voter, empties the voter's old group and leaves every other group as it was |
| AtvaLegacy.MoveSinglesOnce | tva/models/ATVA-1.py:74-80 | moving all the single voters keeps every voter in exactly one group |
| AtvaLegacy.DoubleAimRaises | tva/models/ATVA-1.py:77-80 | as written: groups A:[0,1], B:[2,3], C:[4], with voter 4 ranking C D A B W and winner W, raise KeyError |
| AtvaLegacy.DoubleAimMoves | tva/models/ATVA-1.py:77-80 | corrected: on the same input, voter 4 joins A only and group C is gone |
| AtvaLegacy.DoubleAimJoinsBoth | tva/models/ATVA1.py:65-72 | the later correction, which appends to every preferred aim and deletes once: on the same input, voter 4 joins both A and B and group C is gone, so that step does not keep each voter in one group |
| AtvaLegacy.MoveAllLists | tva/models/ATVA1.py:65-72 | the later correction never raises when the winner and the aims are on the ballot: the voter's group is gone, every aim it prefers grows by the voter, and every other group is unchanged |
| AtvaLegacy.GroupVotersByPreferences | tva/models/ATVA-1.py:40-82 | the loops compute the grouping: the winner is `election_ranking[0][0]`, then the join, then the moves of the single voters with the corrected step MoveFirst, not the step as written, which raises (AtvaLegacy.DoubleAimRaises; see Findings) |
| AtvaLegacy.GroupingOnce | tva/models/ATVA-1.py:40-82 | a successful grouping lists every dissatisfied voter, and no other voter, exactly once, under distinct keys |
| AtvaLegacy.DefaultPairs | tva/models/ATVA-1.py:85-93 | with the default `max_size=3`, every coalition has two or three voters, all drawn from one group |
| AtvaLegacy.ColludeCoalitions | tva/models/ATVA-1.py:96-194 | collude reads the honest winner first, so an empty ranking raises IndexError; it then searches the coalitions, largest first |
| AtvaLegacy.ColludeFound | tva/models/ATVA-1.py:107-177 | a reported coalition is valid against the honest winner and carries no change in total happiness |
| AtvaLegacy.ColludeFrom | tva/models/ATVA-1.py:107-177 | a reported coalition is drawn from one of the coalitions given |
| AtvaLegacy.ColludeNone | tva/models/ATVA-1.py:107-194 | when nothing is found, every coalition was selected without raising, and each one tried was rejected |
| AtvaLegacy.ColludersDissatisfied | tva/models/ATVA-1.py:40-177 | every voter of a coalition found among the grouping's pairs is dissatisfied with the honest winner |
| Atva4.Voters | tva/models/ATVA4.py:55 | `strategic_voters` lists the combination's voter ids, in order |
| Atva4.DictOfKeys | tva/models/ATVA4.py:83 | `dict(voter_preferences)` has distinct keys: exactly the combination's voters |
| Atva4.ApplyCombination | tva/models/ATVA4.py:37-41 | the copy loop computes Applied |
| Atva4.AppliedMeaning | tva/models/ATVA4.py:37-41 | the copy raises nothing exactly when every voter id is in range; then it keeps every other ballot and gives each voter its last ballot in the combination |
| Atva4.AppliedRaises | tva/models/ATVA4.py:40-41 | a voter id out of range ends the copy loop |
| Atva4.AppliedRaiseKind | tva/models/ATVA4.py:41 | the only error of the copy is IndexError |
| Atva4.IsEffectiveAlone | tva/models/ATVA4.py:89-112 | the method computes EffectiveAlone |
| Atva4.EffectiveAloneMeaning | tva/models/ATVA4.py:89-112 | with only the voter's ballot changed, the test raises exactly when its happiness is missing, and holds exactly when its new happiness exceeds its honest one |
| Atva4.Gain | tva/models/ATVA4.py:61-63 | a gain is new minus honest happiness, and KeyError when either is missing |
| Atva4.GainStepOk | tva/models/ATVA4.py:60-74 | one gain step raises nothing exactly when both happinesses exist and, for a beneficiary of a larger combination, the solo test raises nothing |
| Atva4.GainStepFlags | tva/models/ATVA4.py:66-74 | one step sets any_voter_benefits on a gain and clears collective_action_required on a beneficiary that is effective alone |
| Atva4.GainStepGains | tva/models/ATVA4.py:61-64 | one step records the voter's gain |
| Atva4.GainsOk | tva/models/ATVA4.py:60-74 | the gains loop raises nothing exactly when every step raises nothing |
| Atva4.GainsAny | tva/models/ATVA4.py:66-67 | any_voter_benefits holds exactly when some strategic voter gains |
| Atva4.GainsCollective | tva/models/ATVA4.py:57-74 | collective_action_required holds exactly when no beneficiary is effective alone |
| Atva4.GainsEntries | tva/models/ATVA4.py:58-64 | the loop records one gain per strategic voter, in order |
| Atva4.IndividualGainKeys | tva/models/ATVA4.py:58-64 | `individual_gains` has exactly the strategic voters as keys |
| Atva4.IndividualGains | tva/models/ATVA4.py:58-64 | each voter's entry in `individual_gains` is its gain |
| Atva4.EvaluateStrategicCombination | tva/models/ATVA4.py:31-87 | the method computes Evaluation |
| Atva4.GainsOf | tva/models/ATVA4.py:60-74 | the gains loop computes Gains |
| Atva4.GainOf | tva/models/ATVA4.py:61-74 | the loop body computes one gain step |
| Atva4.GainsNext | tva/models/ATVA4.py:60-74 | the gains over k+1 voters are one step after the gains over k |
| Atva4.GainsRaise | tva/models/ATVA4.py:60-74 | a step that raises ends the gains loop |
| Atva4.EvaluationOutOfRange | tva/models/ATVA4.py:41 | a voter id out of range makes the evaluation raise IndexError |
| Atva4.EvaluationMeaning | tva/models/ATVA4.py:31-87 | an opportunity is reported exactly when some strategic voter gains; it lists the voters, their number and the new total, and is collective exactly when no beneficiary is effective alone |
| Atva4Search.OptionsMeaning | tva/models/ATVA4.py:139-145 | the options hold, in increasing id order, exactly the voters with a strategic ballot, each with its ballots |
| Atva4Search.OptionsStore | tva/models/ATVA4.py:143-145 | a voter with strategic ballots is stored with them, after the earlier voters |
| Atva4Search.OptionsGet | tva/models/ATVA4.py:143-145 | a voter is stored exactly when it is in range so far and has strategic ballots, and its entry is those ballots |
| Atva4Search.CollectOptions | tva/models/ATVA4.py:136-145 | the loop computes the options, and `individual_opportunities` is their list of keys |
| Atva4Search.Subsets | tva/models/ATVA4.py:149 | each subset has the size asked for, ids below the number of voters, and no repeats |
| Atva4Search.ChoicesMeaning | tva/models/ATVA4.py:153-157 | a voter's choices are its strategic ballots when it has some, otherwise its sincere ballot alone |
| Atva4Search.VoterOptions | tva/models/ATVA4.py:152-157 | `voter_options` lists each subset member's choices, in order |
| Atva4Search.BuildVoterOptions | tva/models/ATVA4.py:152-157 | the loop computes VoterOptions |
| Atva4Search.Blocks | tva/models/ATVA4.py:149-158 | one block of combinations per subset, in order |
| Atva4Search.SizeBlocks | tva/models/ATVA4.py:148 | one block per size from 2 up to `min(max_strategic_voters, n)` |
| Atva4Search.Evaluations | tva/models/ATVA4.py:158-162 | each combination is evaluated, in order |
| Atva4Search.GatherMeaning | tva/models/ATVA4.py:158-164 | gathering raises nothing exactly when no evaluation raises; then it keeps exactly the opportunities reported |
| Atva4Search.EvaluateAll | tva/models/ATVA4.py:158-164 | the product loop gathers the evaluations |
| Atva4Search.SizeOpportunities | tva/models/ATVA4.py:149-164 | the subset loop gathers the evaluations of every subset of one size |
| Atva4Search.MultiOpportunities | tva/models/ATVA4.py:147-164 | the size loop gathers the evaluations of every size |
| Atva4Search.Analyse | tva/models/ATVA4.py:114-184 | the method computes Analysed |
| Atva4Search.SubsetComboShape | tva/models/ATVA4.py:150-158 | a combination of a subset takes one choice per subset member, and some member has strategic options |
| Atva4Search.ComboShape | tva/models/ATVA4.py:148-158 | a combination tried has 2 up to the bound voters, distinct and in range, one of which has strategic options |
| Atva4Search.ComboInSize | tva/models/ATVA4.py:149-158 | every eligible choice over a subset of a size is tried at that size |
| Atva4Search.ComboTried | tva/models/ATVA4.py:148-158 | every eligible choice over a subset of an allowed size is tried |
| Atva4Search.AnalysedHonest | tva/models/ATVA4.py:119-127 | a successful analysis starts from the honest outcome |
| Atva4Search.AnalysedIndividual | tva/models/ATVA4.py:136-145 | `individual_opportunities` is, in increasing order, exactly the voters with a strategic ballot; has_individual_strategic holds exactly when there is one |
| Atva4Search.FoundShape | tva/models/ATVA4.py:148-164 | every opportunity found has 2 up to the bound voters, distinct and in range |
| Atva4Search.SearchMeaning | tva/models/ATVA4.py:147-167 | some opportunity is found exactly when some combination tried reports one |
| Atva4Search.AnalysedMulti | tva/models/ATVA4.py:147-167 | has_multi_voter_strategic holds exactly when some combination tried is beneficial, and each opportunity has 2 to `max_strategic_voters` distinct voters in range |
| Atva4Multiple.LongestCoalition | tva/models/ATVA4.py:224 | the maximum coalition size is that of some opportunity, and no opportunity is larger |
| Atva4Multiple.BestTotal | tva/models/ATVA4.py:231 | the best strategic total is the default with no opportunity, otherwise the largest new total |
| Atva4Multiple.Beneficial | tva/models/ATVA4.py:231-233 | a simulation counts as beneficial exactly when some opportunity's new total exceeds the honest total |
| Atva4Multiple.Analyses | tva/models/ATVA4.py:219-221 | one analysis per situation drawn, in order |
| Atva4Multiple.Totals | tva/models/ATVA4.py:216-233 | the count of beneficial simulations is at most the number of simulations |
| Atva4Multiple.AnalyseMultiple | tva/models/ATVA4.py:204-241 | given one drawn situation per repetition (none for a negative count), the loop computes the risk and improvement rate from the analyses |
| Atva4Multiple.Record | tva/models/ATVA4.py:223-233 | the loop body tallies one analysis |
| Atva4Multiple.TotalsNext | tva/models/ATVA4.py:219-233 | the tally over i+1 simulations is one step after the tally over i |
| Atva4Multiple.TotalsRaise | tva/models/ATVA4.py:219-233 | an analysis that raises ends the loop |
| Atva4Multiple.AnalysedCoalition | tva/models/ATVA4.py:223-228 | `max_coalition` is 0 exactly when no voter has a strategic ballot, between 2 and `max_strategic_voters` with a multi-voter opportunity, and never more than the voters |
| Atva4Multiple.TotalsBound | tva/models/ATVA4.py:229 | with each max_coalition bounded, the coalition sum is at most the number of simulations times the bound |
| Atva4Multiple.SumBound | tva/models/ATVA4.py:216-229 | the coalition sum is at most the number of simulations times the number of voters |
| Atva4Multiple.RiskBounds | tva/models/ATVA4.py:235-236 | ZeroDivisionError exactly with no repetitions or no voters; otherwise both percentages are between 0 and 100 |
| Atva2.Lists | tva/models/ATVA2.py:21 | the strategy lists are taken in the dict's order |
| Atva2.ReplyBound | tva/models/ATVA2.py:59-71 | the enemy's best happiness is at least -1 and at least that of every option, and only the enemy's ballot may change |
| Atva2.ReplyNone | tva/models/ATVA2.py:59-71 | when no option beats -1 the enemy keeps the situation given |
| Atva2.ReplyFirst | tva/models/ATVA2.py:62-70 | otherwise the enemy takes the first option with the highest happiness |
| Atva2.ReplyAppend | tva/models/ATVA2.py:62-63 | scanning two runs of options is scanning the first, then the second from its result |
| Atva2.ReplyIn | tva/models/ATVA2.py:63-70 | the inner loop computes the scan |
| Atva2.ChooseByEnemy | tva/models/ATVA2.py:55-71 | the method returns the situation the enemy chooses |
| Atva2.Others | tva/models/ATVA2.py:29 | every opponent id is in range and differs from the voter |
| Atva2.OthersMeaning | tva/models/ATVA2.py:29 | the opponents are exactly the other voters |
| Atva2.OthersSorted | tva/models/ATVA2.py:29 | the opponents are in increasing id order |
| Atva2.Replies | tva/models/ATVA2.py:32-39 | one answer per opponent, in order |
| Atva2.AnswersMeaning | tva/models/ATVA2.py:32-39 | the lists raise nothing exactly when no answer raises; then they hold each answer's two happiness values in order |
| Atva2.AnswerOf | tva/models/ATVA2.py:33-37 | the loop body computes one answer |
| Atva2.AnswersOf | tva/models/ATVA2.py:32-39 | the opponent loop computes the answers |
| Atva2.AnswersRaise | tva/models/ATVA2.py:32-39 | an answer that raises ends the loop |
| Atva2.SumBounds | tva/models/ATVA2.py:41-42 | a sum lies between the length times the lower and upper bounds |
| Atva2.MeanBounds | tva/models/ATVA2.py:41-42 | the mean of a non-empty list lies between its bounds |
| Atva2.Outcomes | tva/models/ATVA2.py:21-49 | one record per strategic ballot, in order |
| Atva2.RecordMeaning | tva/models/ATVA2.py:24-49 | a record holds the ballot, the winner with it, the voter's and total honest happiness, and averages that exist exactly when there is an opponent; every opponent's reply succeeds, and the two averages are the means of the voter's happiness and of the total after each reply (`RepliesTo`, in opponent order) |
| Atva2.AnswersLists | tva/models/ATVA2.py:30-39 | the two lists the reply loop fills are the voter's happiness and the total after each reply, in order |
| Atva2.RecordBounds | tva/models/ATVA2.py:41-48 | when every reply leaves the voter's happiness (the total) between two bounds, the record's average lies between them too |
| Atva2.OutcomesAppend | tva/models/ATVA2.py:21-23 | the records of two runs of ballots are the records of each |
| Atva2.CollectAppend | tva/models/ATVA2.py:21-49 | collecting two runs is collecting the first, then the second |
| Atva2.CollectErr | tva/models/ATVA2.py:21-49 | nothing after a raise is collected |
| Atva2.CollectErrAppend | tva/models/ATVA2.py:21-49 | a raise in the first run decides the whole collection |
| Atva2.CollectMeaning | tva/models/ATVA2.py:21-49 | collecting raises nothing exactly when no record raises; then it lists each record in order |
| Atva2.RecordsIn | tva/models/ATVA2.py:23-49 | the inner loop collects the records |
| Atva2.CollectNext | tva/models/ATVA2.py:23-49 | collecting j+1 records is one step after collecting j |
| Atva2.RecordOf | tva/models/ATVA2.py:24-49 | the loop body computes one record |
| Atva2.RecordsErr | tva/models/ATVA2.py:21-49 | a raise in an early list decides the records |
| Atva2.RecordsOf | tva/models/ATVA2.py:20-49 | the two loops collect the records of every strategic ballot |
| Atva2.AnalyseSingle | tva/models/ATVA2.py:11-53 | the method computes AnalysedSingle |
| Atva2.AnalysedSingleMeaning | tva/models/ATVA2.py:11-53 | with no voter the analysis is empty; otherwise only voter 0 is analysed, with one record per strategic ballot holding it, the honest happiness, and the means of the voter's and the total happiness over the opponents' replies to it |
| Atva3.Holes | ATVA-3.py:19 | the count of `?` entries is at most the length, and 0 exactly when there is no `?` |
| Atva3.Known | ATVA-3.py:20 | the known entries are the non-`?` ones, and their number is the length less the holes |
| Atva3.Missing | ATVA-3.py:21 | the missing candidates are exactly those not known, and are distinct when the candidates are |
| Atva3.Filled | ATVA-3.py:24-30 | filling keeps the length |
| Atva3.HolesSnoc | ATVA-3.py:26-30 | one more entry adds one hole exactly when it is `?` |
| Atva3.HolesPrefix | ATVA-3.py:26-30 | a prefix never has more holes than the whole |
| Atva3.FilledSnoc | ATVA-3.py:26-30 | filling one more entry appends the next pool entry for `?`, the entry itself otherwise |
| Atva3.FilledAt | ATVA-3.py:26-30 | the i-th `?` takes the pool entry after those used before it |
| Atva3.FilledMeaning | ATVA-3.py:24-30 | known entries stay in place, and each `?` takes the next pool entry in order |
| Atva3.FilledMultiset | ATVA-3.py:24-30 | the filled entries are the known ones plus the pool entries used |
| Atva3.CompletedMeaning | ATVA-3.py:24-31 | completion raises StopIteration exactly when there are more `?` than missing candidates; otherwise it fills the holes in order and appends the rest of the pool |
| Atva3.CompletedMultiset | ATVA-3.py:24-31 | a completed ballot holds the known entries plus the whole pool |
| Atva3.MissingMultiset | ATVA-3.py:21 | the missing candidates are the candidates less the known ones |
| Atva3.PoolCompletes | ATVA-3.py:20-22 | the known entries and the shuffled pool together are the candidates |
| Atva3.CompletesIff | ATVA-3.py:18-31 | completion raises nothing exactly when the ballot is no longer than the candidate list |
| Atva3.CompletedPermutes | ATVA-3.py:18-32 | a completed ballot is a permutation of the candidates |
| Atva3.CompleteBallot | ATVA-3.py:24-31 | the loop with `next(missing_iter)` and the final `extend` computes the completion |
| Atva3.Simulated | ATVA-3.py:18-32 | a simulated profile has one ballot per voter |
| Atva3.SimulatedRaised | ATVA-3.py:18-32 | a voter whose completion raises ends the simulation |
| Atva3.SimulatedMeaning | ATVA-3.py:18-32 | the simulation raises exactly when some voter's completion does; otherwise each voter holds its completion, and full ballots are kept |
| Atva3.SimulationRanksAll | ATVA-3.py:18-32 | with full-length ballots over the candidates, the simulation raises nothing and every completed ballot is a permutation of the candidates |
| Atva3.SimulateOnce | ATVA-3.py:16-32 | the voter loop computes the simulated profile |
| Atva3.Simulations | ATVA-3.py:15-39 | one outcome per simulation, none for a count below one |
| Atva3.BestNext | ATVA-3.py:41-43 | the best over k+1 simulations is one selection step after the best over k |
| Atva3.BestRaised | ATVA-3.py:41-43 | a simulation that raises ends the search |
| Atva3.BestNone | ATVA-3.py:12-13 | the search raises exactly when a simulation does, and leaves no situation and `-inf` exactly with no simulation |
| Atva3.BestFirst | ATVA-3.py:41-43 | the best simulation has the highest overall happiness and is the first to reach it |
| Atva3.MonteCarlo | ATVA-3.py:11-45 | the method computes the Monte Carlo result |

## Left out

- Experiment drivers, plotting and CSV output (compare_btva_atva*.py, plotter/, btva_experiments/, main.py, analyse.py, tva/analyse.py, testing.py): they only orchestrate runs and report them.
- Module-level script code that runs on import (tva/models/ATVA-1.py:211-243, BTVA.py:65-74, ATVA-3.py:48-60, tva/situation.py:32-35): it is a demonstration, not part of the analysers.
- Console and table output, `verbose` flags, tqdm, pandas and tabulate, including `display_strategic_data` and `_print_analysis_results`: they print and compute nothing that is returned.
- tva/enums.py: it has no behaviour beyond `__str__`. The three enums are Dafny datatypes in module `Common`.
- The unused `ProcessPoolExecutor` import: nothing is concurrent.
- Randomness: `random.sample` in tva/voter.py:9-11, the seeded generator of `Situation` (tva/situation.py:9, 18), the `sample` of strategic voter ids in tva/strategies.py:12, `random.shuffle` in ATVA-3.py:22, and the fresh `Situation` drawn per repetition in the `analyse_multiple` loops. The drawn values are inputs, so the model holds for every draw.
- The fixed seed of `Situation(num_voters, num_candidates, seed=42)` in tva/models/BTVA.py:30: the sincere ballots it yields are an input of `Btva.AnalyseSingle`.
- `NUM_STRATEGIC_VOTERS` of the `globals` module: that module is not part of this model, so the ids sampled with it are a parameter of the `Strategies` constructor.
- `HappinessCounter.calculate_happiness` (tva/happiness.py:6-15): its comparisons `Happiness.:` do not parse, and it reads a `self.preferences` that is never set. The helpers take the ballot as a parameter instead.
- Plurality and anti-plurality happiness (tva/happiness.py:17-36): they use `log2` and `exp`, which Dafny's `real` does not have. Their rank, `index(winner) + 1`, is `Happiness.Rank`.
- Floating point: every float is a `real`. Rounding is not modelled, so the sums and means are exact.
- `np.mean` of an empty list (tva/models/ATVA2.py:41-42) is NaN with a warning; the model gives `None`.
- `-float('inf')` in ATVA-3.py:13: the model uses `None` for "no simulation yet", and any real beats it.
- Unshown collaborators: `Schemes.apply_voting_scheme`, `Happiness.calculate` and `calculate_ranked`, `Situation.calculate_happiness` and `calculate_individual_happiness`, and `Strategies.analyse_situation`, `get_strategic_preferences_for_voter` and `apply_all_strategies_to_voter`. Their code is not part of this model, so each is a function-typed field of `Collaborators.Collaborators` and is left unconstrained. The bullet, burying and compromising searches, Kendall tau and weighted positional happiness are not modelled.
- Signatures that disagree between files: `Voter(i, candidates, seed=...)` at tva/situation.py:19 against `Voter(voter_id, candidates)` at tva/voter.py:4; `voter.voter_id` read in tva/models/ATVA2.py and in the dissatisfied-voter comprehension at tva/models/ATVA1.py:38 against the attribute `id` set in tva/voter.py:5; `analyse_single(situation, ...)` called from ATVA1 against `analyse_single(num_voters, num_candidates, ...)` at tva/models/BTVA.py:28; `Situation(..., info=0.5)` at ATVA-3.py:49, which `Situation` does not accept. The model takes a voter's id to be its position and the analysers to receive the sincere ballots. It does not model where ATVA-3's `?` entries come from.
- The scheme methods `get_strategic_options` looks up by name (tva/strategies.py:71-77, 102-109): tva/schemes.py defines the four `<scheme>_voting` methods but no `<scheme>_happiness` and no `overall_happiness`, so as written the first `getattr` for a happiness method raises AttributeError whenever a scheme is listed. The model takes the winner, the happiness dict and the overall happiness as the fields of a `Strategies.SchemeOracle` parameter, and describes what the method does once those exist.
- `Strategies.SchemeOracle`: its `vote` field is not tied to the voting functions of module `Schemes`, so the IndexError and ValueError those raise on an empty electorate or an empty ballot do not reach `Strategies.OptionFor`, `Strategies.OptionsOf` or `Strategies.OriginalResults`; there the only error is the IndexError of the swap on an empty ballot.
- `deepcopy`: situations are values, so a copy is the value itself and an edit makes a new sequence. Aliasing between the copies is not modelled; no analyser relies on it.
- Parameters the source accepts but never reads: `strategy_type` in tva/models/ATVA2.py:11, `honest_winner` in tva/models/ATVA4.py:32, and `stratVoters` in `group_voters_by_preferences`. The `exhaustive_search=True` flag passed to `get_strategic_preferences_for_voter` and `apply_all_strategies_to_voter` is passed at every call, so it belongs to those collaborators. `analyse_situation` is called with it at tva/models/BTVA.py:45 and without it at BTVA.py:38, so `Collaborators.analyseSituation` takes the flag and the two calls may run different searches.
- ATVA2's loop over `situation.voters[:1]` runs at most once, so it is an `if` on a non-empty situation.
- `apply_voting_scheme(voting_scheme, voters, True, True)` in tva/models/ATVA-1.py:127 and for `original_rank` in tva/models/ATVA1.py:199: the meaning of its second flag is not shown, so it is taken to return the ranking, as with `return_ranking=True`. `temp_election[0]` is then the first candidate alone, and that one-letter string is what the ranked metrics score (`AtvaLegacy.Scoring`). In ATVA1 the ranking is `Collaborators.ranking`, read by `Atva1.FindCollusion`.
- Ties: `Counter` and `max` keep the candidate first inserted. The model follows this first-insertion order, not alphabetical order.
- Python `set` iteration order: the `aims` of the grouping (tva/models/ATVA1.py:65, tva/models/ATVA-1.py:67) are iterated in the order of the groups. Python's order over a set of strings depends on hashing.
- ATVA-1's `merge_strategies` (tva/models/ATVA-1.py:14-35), `form_voter_pairs` (85-93) and `select_best_strategy` (196-209): apart from printing, they match ATVA1's and are modelled once, in module `Coalitions`. The one difference is that the merge returns `False` rather than `[False]` on too few voters, and module `Coalitions` models both as `NotEnough`.
- `ATVA1.analyse_multiple_for_comparison` (tva/models/ATVA1.py:220-229): it calls `analyse_multiple` with a list of situations and a strategy type, but `analyse_multiple` at tva/models/BTVA.py:78 takes counts of voters and candidates. As written the call binds the arguments to the wrong parameters and lacks `strategy_type`, so it raises TypeError; there is no further behaviour to model.
- `Atva4Multiple.AnalyseMultiple`: the situations drawn in its loop are a parameter, one per repetition. The model does not require each of them to hold `num_voters` ballots that order all the candidates, as `Situation` draws them; `Atva4Multiple.RiskBounds` assumes the count of ballots.
- Atva4.GainsOf: it returns `individual_gains` as the list of its stores in order. The dict itself is `DictOf` of that list, and `Atva4.IndividualGainKeys` and `Atva4.IndividualGains` state its contents.

## Findings

| source | as written | input that shows it | evidently intended | confidence | as-written member | corrected member |
|---|---|---|---|---|---|---|
| tva/models/ATVA-1.py:77-80 | a voter alone in its group is appended to every aim it ranks above the winner, and `del voter_groups[key]` runs at each of those moves | groups A:[0,1], B:[2,3], C:[4]; voter 4 ranks C D A B W; winner W. The second move deletes C again and raises KeyError | delete the voter's group once. Two readings fit. The later tva/models/ATVA1.py:65-72 appends the voter to every aim it prefers and then deletes its group unconditionally. This model takes the other reading: move the voter to the first aim it prefers, in the order of the aims, and delete its group once, as the join's `break` does. That reading keeps every voter in one group (AtvaLegacy.GroupingOnce), which the ATVA1 step does not (AtvaLegacy.DoubleAimJoinsBoth). Which aim is first depends on Python's set order, which is not modelled | not executed | AtvaLegacy.DoubleAimRaises (with AtvaLegacy.MoveAndDelete) | AtvaLegacy.DoubleAimMoves (with AtvaLegacy.MoveFirst, used by AtvaLegacy.Grouping); the ATVA1 reading: AtvaLegacy.DoubleAimJoinsBoth (with AtvaLegacy.MoveAllLists) |
