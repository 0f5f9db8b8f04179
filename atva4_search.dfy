/** tva/models/ATVA4.py, `analyse` and `analyse_multiple`: the voters with
    strategic options, the search over every subset of two up to
    `max_strategic_voters` voters and every combination of their options,
    and the risk measured over many situations. */
module Atva4Search {
  import opened Common
  import opened Dicts
  import opened Collaborators
  import opened Itertools
  import opened Atva4

  /** `all_voter_strategic_options`: per voter with options, its strategic
      ballots. */
  type Options = Dict<VoterId, seq<Ballot>>

  // ---------------------------------------------------------------------
  // The voters with strategic options.

  /** `get_strategic_preferences_for_voter(situation, v, scheme, func,
      strategy_type, exhaustive_search=True)`. */
  function Offers(c: Collaborators, sincere: seq<Ballot>, s: VotingScheme, f: HappinessFunc,
                  t: StrategyType, v: VoterId): seq<Ballot>
  {
    c.strategicPreferences(sincere, v, s, f, t)
  }

  /** `all_voter_strategic_options` after the first `k` voters: each voter
      whose search finds a ballot is stored, in voter order. */
  function OptionsUpTo(c: Collaborators, sincere: seq<Ballot>, s: VotingScheme, f: HappinessFunc,
                       t: StrategyType, k: nat): Options
  {
    if k == 0 then []
    else
      var v: VoterId := k - 1;
      var before := OptionsUpTo(c, sincere, s, f, t, v);
      var prefs := Offers(c, sincere, s, f, t, v);
      if prefs == [] then before else before + [(v, prefs)]
  }

  /** The options dict holds, in increasing voter order, exactly the voters
      below `k` whose search finds something, each with what it found. */
  lemma {:induction false} OptionsMeaning(c: Collaborators, sincere: seq<Ballot>, s: VotingScheme, f: HappinessFunc,
                                          t: StrategyType, k: nat)
    ensures var r := OptionsUpTo(c, sincere, s, f, t, k);
            (forall i :: 0 <= i < |r| ==> r[i].0 < k && r[i].1 == Offers(c, sincere, s, f, t, r[i].0) && r[i].1 != []) &&
            (forall i, j :: 0 <= i < j < |r| ==> r[i].0 < r[j].0) &&
            (forall v: VoterId :: v < k && Offers(c, sincere, s, f, t, v) != [] ==> v in Keys(r))
    decreases k
  {
    if k > 0 {
      var w: VoterId := k - 1;
      OptionsMeaning(c, sincere, s, f, t, w);
      var before := OptionsUpTo(c, sincere, s, f, t, w);
      var prefs := Offers(c, sincere, s, f, t, w);
      var r := OptionsUpTo(c, sincere, s, f, t, k);
      assert r == if prefs == [] then before else before + [(w, prefs)];
      forall v: VoterId | v < k && Offers(c, sincere, s, f, t, v) != []
        ensures v in Keys(r)
      {
        if v < w {
          var p :| p in before && p.0 == v;
          assert p in r;
        } else {
          assert (v, prefs) in r;
        }
      }
    }
  }

  /** Storing a voter's options: the voter is new to the dict, so
      `d[v] = prefs` appends it. */
  lemma {:induction false} OptionsStore(c: Collaborators, sincere: seq<Ballot>, s: VotingScheme, f: HappinessFunc,
                     t: StrategyType, k: nat)
    requires Offers(c, sincere, s, f, t, k) != []
    ensures OptionsUpTo(c, sincere, s, f, t, k + 1) ==
            Put(OptionsUpTo(c, sincere, s, f, t, k), k, Offers(c, sincere, s, f, t, k))
  {
    var before := OptionsUpTo(c, sincere, s, f, t, k);
    OptionsMeaning(c, sincere, s, f, t, k);
    forall p | p in before
      ensures p.0 != k
    {
      var i :| 0 <= i < |before| && before[i] == p;
    }
  }

  /** A voter's options are found in the dict exactly when its search
      finds something; `d.get(v)` then gives what it found. */
  lemma {:induction false} OptionsGet(c: Collaborators, sincere: seq<Ballot>, s: VotingScheme, f: HappinessFunc,
                   t: StrategyType, k: nat, v: VoterId)
    ensures var r := OptionsUpTo(c, sincere, s, f, t, k);
            (v in Keys(r) <==> v < k && Offers(c, sincere, s, f, t, v) != []) &&
            (v in Keys(r) ==> Get(r, v) == Some(Offers(c, sincere, s, f, t, v)))
  {
    var r := OptionsUpTo(c, sincere, s, f, t, k);
    OptionsMeaning(c, sincere, s, f, t, k);
    if v in Keys(r) {
      var p :| p in r && p.0 == v;
      var i :| 0 <= i < |r| && r[i] == p;
      assert KeysDistinct(r) by {
        forall a, b | 0 <= a < b < |r|
          ensures r[a].0 != r[b].0
        {
          assert r[a].0 < r[b].0;
        }
      }
      GetUnique(r, v, Offers(c, sincere, s, f, t, v));
    }
  }

  /** The loop of `analyse` over the voters: `all_voter_strategic_options`
      and `individual_opportunities`, the voters it stores. */
  method CollectOptions(c: Collaborators, sincere: seq<Ballot>, s: VotingScheme, f: HappinessFunc, t: StrategyType)
    returns (options: Options, individual: seq<VoterId>)
    ensures options == OptionsUpTo(c, sincere, s, f, t, |sincere|)
    ensures individual == KeyList(options)
  {
    options, individual := [], [];
    for v: VoterId := 0 to |sincere|
      invariant options == OptionsUpTo(c, sincere, s, f, t, v)
      invariant individual == KeyList(options)
    {
      var prefs := c.strategicPreferences(sincere, v, s, f, t);
      assert prefs == Offers(c, sincere, s, f, t, v);
      if prefs != [] {
        OptionsStore(c, sincere, s, f, t, v);
        KeyListSnoc<VoterId, seq<Ballot>>(options, (v, prefs));
        options := Put<VoterId, seq<Ballot>>(options, v, prefs);
        individual := individual + [v];
      }
    }
  }

  // ---------------------------------------------------------------------
  // The combinations tried.

  /** Every voter of `subset` is a voter of the situation. */
  predicate Below(subset: seq<nat>, n: nat)
  {
    forall i :: 0 <= i < |subset| ==> subset[i] < n
  }

  /** `itertools.combinations(range(n), size)`: the subsets of one size,
      each without repeats and drawn from the `n` voters. */
  function Subsets(n: nat, size: nat): (r: seq<seq<nat>>)
    ensures forall i :: 0 <= i < |r| ==> |r[i]| == size && Below(r[i], n) && Distinct(r[i])
  {
    var r := Combinations<nat>(Range(n), size);
    SubsetsShape(n, size, r);
    r
  }

  lemma {:induction false} SubsetsShape(n: nat, size: nat, r: seq<seq<nat>>)
    requires r == Combinations<nat>(Range(n), size)
    ensures forall i :: 0 <= i < |r| ==> Below(r[i], n) && Distinct(r[i])
  {
    forall i | 0 <= i < |r|
      ensures Below(r[i], n) && Distinct(r[i])
    {
      CombinationsFrom<nat>(Range(n), size, i);
      CombinationsDistinct<nat>(Range(n), size, i);
      forall j | 0 <= j < |r[i]|
        ensures r[i][j] < n
      {
        assert r[i][j] in Range(n);
        var m :| 0 <= m < n && Range(n)[m] == r[i][j];
      }
    }
  }

  /** A member's entry of `voter_options`: one pair per strategic ballot
      when it has options, else its sincere ballot alone. */
  function Choices(opts: Options, sincere: seq<Ballot>, v: VoterId): seq<(VoterId, Ballot)>
    requires v < |sincere|
  {
    match Get(opts, v)
    case Some(prefs) => seq(|prefs|, i requires 0 <= i < |prefs| => (v, prefs[i]))
    case None => [(v, sincere[v])]
  }

  /** Every choice for voter `v` is cast by `v`, with one of its strategic
      ballots when it has options and with its sincere ballot otherwise. */
  lemma {:induction false} ChoicesMeaning(opts: Options, sincere: seq<Ballot>, v: VoterId, x: (VoterId, Ballot))
    requires v < |sincere|
    ensures x in Choices(opts, sincere, v) <==>
              x.0 == v && (if v in Keys(opts) then x.1 in Get(opts, v).value else x.1 == sincere[v])
  {
    var r := Choices(opts, sincere, v);
    if v in Keys(opts) && x.0 == v && x.1 in Get(opts, v).value {
      var prefs := Get(opts, v).value;
      var i :| 0 <= i < |prefs| && prefs[i] == x.1;
      assert r[i] == x;
    }
  }

  /** `voter_options`: one list of choices per member of the subset. */
  function VoterOptions(opts: Options, sincere: seq<Ballot>, subset: seq<nat>): (r: seq<seq<(VoterId, Ballot)>>)
    requires Below(subset, |sincere|)
    ensures |r| == |subset| && forall j :: 0 <= j < |subset| ==> r[j] == Choices(opts, sincere, subset[j])
  {
    seq(|subset|, j requires 0 <= j < |subset| => Choices(opts, sincere, subset[j]))
  }

  /** The loop of `analyse` building `voter_options`. */
  method BuildVoterOptions(opts: Options, sincere: seq<Ballot>, subset: seq<nat>)
    returns (voterOptions: seq<seq<(VoterId, Ballot)>>)
    requires Below(subset, |sincere|)
    ensures voterOptions == VoterOptions(opts, sincere, subset)
  {
    voterOptions := [];
    for j := 0 to |subset|
      invariant voterOptions == VoterOptions(opts, sincere, subset[..j])
    {
      var v := subset[j];
      var found := Get(opts, v);
      if found.Some? {
        var prefs := found.value;
        voterOptions := voterOptions + [seq(|prefs|, i requires 0 <= i < |prefs| => (v, prefs[i]))];
      } else {
        voterOptions := voterOptions + [[(v, sincere[v])]];
      }
    }
    assert subset[..|subset|] == subset;
  }

  /** `any(v in all_voter_strategic_options for v in voter_subset)`. */
  predicate Eligible(opts: Options, subset: seq<nat>)
  {
    exists j :: 0 <= j < |subset| && subset[j] in Keys(opts)
  }

  /** The combinations tried for one subset: none unless some member has
      options, else `itertools.product(*voter_options)`. */
  function SubsetCombos(opts: Options, sincere: seq<Ballot>, subset: seq<nat>): seq<Combination>
    requires Below(subset, |sincere|)
  {
    if Eligible(opts, subset) then Product(VoterOptions(opts, sincere, subset)) else []
  }

  /** The combinations tried for each subset of a run, subset by subset. */
  function Blocks(opts: Options, sincere: seq<Ballot>, subsets: seq<seq<nat>>): (r: seq<seq<Combination>>)
    requires forall i :: 0 <= i < |subsets| ==> Below(subsets[i], |sincere|)
    ensures |r| == |subsets| && forall i :: 0 <= i < |subsets| ==> r[i] == SubsetCombos(opts, sincere, subsets[i])
  {
    seq(|subsets|, i requires 0 <= i < |subsets| => SubsetCombos(opts, sincere, subsets[i]))
  }

  /** The combinations tried for a run of subsets, in order. */
  function SubsetsCombos(opts: Options, sincere: seq<Ballot>, subsets: seq<seq<nat>>): seq<Combination>
    requires forall i :: 0 <= i < |subsets| ==> Below(subsets[i], |sincere|)
  {
    Flatten(Blocks(opts, sincere, subsets))
  }

  /** The combinations tried for the subsets of one size. */
  function SizeCombos(opts: Options, sincere: seq<Ballot>, size: nat): seq<Combination>
  {
    SubsetsCombos(opts, sincere, Subsets(|sincere|, size))
  }

  /** The combinations tried for each subset size from 2 below `top`,
      size by size. */
  function SizeBlocks(opts: Options, sincere: seq<Ballot>, top: nat): (r: seq<seq<Combination>>)
    ensures |r| == (if top <= 2 then 0 else top - 2)
    ensures forall i :: 0 <= i < |r| ==> r[i] == SizeCombos(opts, sincere, i + 2)
  {
    seq(if top <= 2 then 0 else top - 2, i requires 0 <= i => SizeCombos(opts, sincere, i + 2))
  }

  /** Every combination `analyse` tries, smaller subsets first. */
  function SizesCombos(opts: Options, sincere: seq<Ballot>, top: nat): seq<Combination>
  {
    Flatten(SizeBlocks(opts, sincere, top))
  }

  /** `min(max_strategic_voters + 1, len(situation.voters) + 1)`, where the
      size loop stops; a negative bound tries nothing, like 0. */
  function Top(maxVoters: int, n: nat): nat
  {
    if maxVoters + 1 < n + 1 then (if maxVoters < 0 then 0 else maxVoters + 1) else n + 1
  }

  // ---------------------------------------------------------------------
  // The opportunities found.

  /** What `evaluate_strategic_combination` gives for each combination, in
      order. */
  function Evaluations(e: Setting, combos: seq<Combination>): (r: seq<Result<Option<Opportunity>>>)
    ensures |r| == |combos| && forall i :: 0 <= i < |combos| ==> r[i] == Evaluation(e, combos[i])
  {
    seq(|combos|, i requires 0 <= i < |combos| => Evaluation(e, combos[i]))
  }

  /** `multi_voter_opportunities` after the outcomes `outs`, starting from
      `acc`: each beneficial combination is appended in turn, and the first
      combination that raises makes the search raise. */
  function Gather(acc: Result<seq<Opportunity>>, outs: seq<Result<Option<Opportunity>>>): Result<seq<Opportunity>>
  {
    if outs == [] then acc
    else Keep(Gather(acc, outs[..|outs| - 1]), outs[|outs| - 1])
  }

  /** One more outcome: an earlier error stands, an error raises, an
      opportunity is appended. */
  function Keep(acc: Result<seq<Opportunity>>, out: Result<Option<Opportunity>>): Result<seq<Opportunity>>
  {
    if acc.Err? then acc
    else match out
      case Err(err) => Err(err)
      case Ok(None) => acc
      case Ok(Some(o)) => Ok(acc.value + [o])
  }

  /** The outcomes of a run of combinations followed by another. */
  lemma {:induction false} EvaluationsAppend(e: Setting, a: seq<Combination>, b: seq<Combination>)
    ensures Evaluations(e, a + b) == Evaluations(e, a) + Evaluations(e, b)
  {
    var l, r := Evaluations(e, a + b), Evaluations(e, a) + Evaluations(e, b);
    forall i | 0 <= i < |l|
      ensures l[i] == r[i]
    {
      if i < |a| {
        assert (a + b)[i] == a[i];
      } else {
        assert (a + b)[i] == b[i - |a|];
      }
    }
  }

  /** Gathering two runs of outcomes is gathering the second after the
      first. */
  lemma {:induction false} GatherAppend(acc: Result<seq<Opportunity>>, a: seq<Result<Option<Opportunity>>>,
                                        b: seq<Result<Option<Opportunity>>>)
    ensures Gather(acc, a + b) == Gather(Gather(acc, a), b)
    decreases |b|
  {
    if b == [] {
      assert a + b == a;
    } else {
      var n := |b| - 1;
      GatherAppend(acc, a, b[..n]);
      assert (a + b)[..|a + b| - 1] == a + b[..n];
    }
  }

  /** Once the search raises, it raises the same error to the end. */
  lemma {:induction false} GatherErr(err: Raised, outs: seq<Result<Option<Opportunity>>>)
    ensures Gather(Err(err), outs) == Err(err)
    decreases |outs|
  {
    if outs != [] {
      GatherErr(err, outs[..|outs| - 1]);
    }
  }

  /** A run that raises makes any longer run raise the same error. */
  lemma {:induction false} GatherErrAppend(acc: Result<seq<Opportunity>>, a: seq<Result<Option<Opportunity>>>,
                        b: seq<Result<Option<Opportunity>>>)
    requires Gather(acc, a).Err?
    ensures Gather(acc, a + b) == Gather(acc, a)
  {
    GatherAppend(acc, a, b);
    GatherErr(Gather(acc, a).raised, b);
  }

  /** From an empty list, the search raises nothing exactly when no
      combination raises; it then holds exactly the opportunities the
      combinations yield. */
  lemma {:induction false} GatherMeaning(outs: seq<Result<Option<Opportunity>>>)
    ensures Gather(Ok([]), outs).Ok? <==> forall i :: 0 <= i < |outs| ==> outs[i].Ok?
    ensures Gather(Ok([]), outs).Ok? ==>
              forall o :: o in Gather(Ok([]), outs).value <==> exists i :: 0 <= i < |outs| && outs[i] == Ok(Some(o))
    decreases |outs|
  {
    if outs != [] {
      var n := |outs| - 1;
      GatherMeaning(outs[..n]);
      assert forall i :: 0 <= i < n ==> outs[..n][i] == outs[i];
      if Gather(Ok([]), outs).Ok? {
        var found := Gather(Ok([]), outs).value;
        var before := Gather(Ok([]), outs[..n]).value;
        forall o | o in found
          ensures exists i :: 0 <= i < |outs| && outs[i] == Ok(Some(o))
        {
          if o !in before {
            assert outs[n] == Ok(Some(o));
          }
        }
        forall o, i | 0 <= i < |outs| && outs[i] == Ok(Some(o))
          ensures o in found
        {
          if i < n {
            assert outs[..n][i] == Ok(Some(o));
          }
        }
      }
    }
  }

  /** The inner loop of `analyse`: each combination of one subset is
      evaluated and kept when beneficial. */
  method EvaluateAll(e: Setting, combos: seq<Combination>, acc: seq<Opportunity>) returns (r: Result<seq<Opportunity>>)
    ensures r == Gather(Ok(acc), Evaluations(e, combos))
  {
    ghost var outs := Evaluations(e, combos);
    var found := acc;
    for i := 0 to |combos|
      invariant Gather(Ok(acc), outs[..i]) == Ok(found)
    {
      var result := EvaluateStrategicCombination(e, combos[i]);
      assert outs[..i + 1][..i] == outs[..i];
      if result.Err? {
        GatherErrAppend(Ok(acc), outs[..i + 1], outs[i + 1..]);
        assert outs[..i + 1] + outs[i + 1..] == outs;
        return Err(result.raised);
      }
      if result.value.Some? {
        found := found + [result.value.value];
      }
    }
    assert outs[..|combos|] == outs;
    return Ok(found);
  }

  /** Once the blocks searched so far raise, the whole search raises the
      same error. */
  lemma {:induction false} FlattenErr(e: Setting, acc: Result<seq<Opportunity>>, blocks: seq<seq<Combination>>, j: nat)
    requires j <= |blocks| && Gather(acc, Evaluations(e, Flatten(blocks[..j]))).Err?
    ensures Gather(acc, Evaluations(e, Flatten(blocks))) == Gather(acc, Evaluations(e, Flatten(blocks[..j])))
  {
    var done, all := Flatten(blocks[..j]), Flatten(blocks);
    FlattenPrefix(blocks, j);
    EvaluationsAppend(e, done, all[|done|..]);
    GatherErrAppend(acc, Evaluations(e, done), Evaluations(e, all[|done|..]));
  }

  /** The loop of `analyse` over the subsets of one size: a subset where
      no member has options is skipped, the others have every combination
      of their members' choices evaluated. */
  method SizeOpportunities(e: Setting, opts: Options, size: nat, acc: seq<Opportunity>) returns (r: Result<seq<Opportunity>>)
    ensures r == Gather(Ok(acc), Evaluations(e, SubsetsCombos(opts, e.sincere, Subsets(|e.sincere|, size))))
  {
    var subsets := Subsets(|e.sincere|, size);
    ghost var blocks := Blocks(opts, e.sincere, subsets);
    var found := acc;
    for i := 0 to |subsets|
      invariant Gather(Ok(acc), Evaluations(e, Flatten(blocks[..i]))) == Ok(found)
    {
      FlattenNext(blocks, i);
      EvaluationsAppend(e, Flatten(blocks[..i]), blocks[i]);
      GatherAppend(Ok(acc), Evaluations(e, Flatten(blocks[..i])), Evaluations(e, blocks[i]));
      if Eligible(opts, subsets[i]) {
        var voterOptions := BuildVoterOptions(opts, e.sincere, subsets[i]);
        var result := EvaluateAll(e, Product(voterOptions), found);
        if result.Err? {
          FlattenErr(e, Ok(acc), blocks, i + 1);
          return result;
        }
        found := result.value;
      } else {
        assert Evaluations(e, blocks[i]) == [];
      }
    }
    assert blocks[..|subsets|] == blocks;
    return Ok(found);
  }

  /** The loop of `analyse` over the subset sizes, from 2 below `top`. */
  method MultiOpportunities(e: Setting, opts: Options, top: nat) returns (r: Result<seq<Opportunity>>)
    ensures r == Gather(Ok([]), Evaluations(e, SizesCombos(opts, e.sincere, top)))
  {
    if top <= 2 {
      return Ok([]);
    }
    ghost var blocks := SizeBlocks(opts, e.sincere, top);
    var found := [];
    for size: nat := 2 to top
      invariant Gather(Ok([]), Evaluations(e, Flatten(blocks[..size - 2]))) == Ok(found)
    {
      FlattenNext(blocks, size - 2);
      EvaluationsAppend(e, Flatten(blocks[..size - 2]), blocks[size - 2]);
      GatherAppend(Ok([]), Evaluations(e, Flatten(blocks[..size - 2])), Evaluations(e, blocks[size - 2]));
      var result := SizeOpportunities(e, opts, size, found);
      if result.Err? {
        FlattenErr(e, Ok([]), blocks, size - 1);
        return result;
      }
      found := result.value;
    }
    assert blocks[..top - 2] == blocks;
    return Ok(found);
  }

  // ---------------------------------------------------------------------
  // analyse

  /** The dict `analyse` returns. */
  datatype Atva4Report = Atva4Report(
    hasIndividual: bool,
    hasMulti: bool,
    individual: seq<VoterId>,
    multi: seq<Opportunity>,
    honestWinner: Candidate,
    honestTotal: real,
    honestIndividual: map<VoterId, real>)

  /** `analyse`: the honest outcome (a ranked metric reads the ranking's
      first entry, IndexError when it is empty), the voters with options,
      and the search for multi-voter opportunities. */
  function Analysed(c: Collaborators, sincere: seq<Ballot>, s: VotingScheme, f: HappinessFunc, t: StrategyType,
                    maxVoters: int): Result<Atva4Report>
  {
    match Evaluate(c, IsRankedMetric(f), f, s, sincere, sincere)
    case Err(err) => Err(err)
    case Ok((w, h)) => Searched(c, sincere, s, f, t, maxVoters, w, h)
  }

  /** The analysis once the honest outcome `w`, `h` is known. */
  function Searched(c: Collaborators, sincere: seq<Ballot>, s: VotingScheme, f: HappinessFunc, t: StrategyType,
                    maxVoters: int, w: Candidate, h: Happy): Result<Atva4Report>
  {
    var opts := OptionsUpTo(c, sincere, s, f, t, |sincere|);
    var e := Setting(c, f, s, sincere, h.individual);
    match Gather(Ok([]), Evaluations(e, SizesCombos(opts, sincere, Top(maxVoters, |sincere|))))
    case Err(err) => Err(err)
    case Ok(multi) => Ok(Atva4Report(|KeyList(opts)| > 0, |multi| > 0, KeyList(opts), multi, w, h.total, h.individual))
  }

  method Analyse(c: Collaborators, sincere: seq<Ballot>, s: VotingScheme, f: HappinessFunc, t: StrategyType,
                 maxVoters: int) returns (r: Result<Atva4Report>)
    ensures r == Analysed(c, sincere, s, f, t, maxVoters)
  {
    var w, h;
    if f == KendallTau || f == WeightedPositional {
      var ranking := c.ranking(s, sincere);
      if ranking == [] {
        return Err(IndexError);
      }
      w := ranking[0];
      h := c.calculateRanked(sincere, ranking, f);
    } else {
      w := c.winner(s, sincere);
      h := c.calculate(sincere, w, f);
    }
    assert Analysed(c, sincere, s, f, t, maxVoters) == Searched(c, sincere, s, f, t, maxVoters, w, h);
    var options, individual := CollectOptions(c, sincere, s, f, t);
    var e := Setting(c, f, s, sincere, h.individual);
    var multi := MultiOpportunities(e, options, Top(maxVoters, |sincere|));
    if multi.Err? {
      return Err(multi.raised);
    }
    return Ok(Atva4Report(|individual| > 0, |multi.value| > 0, individual, multi.value, w, h.total, h.individual));
  }

  // ---------------------------------------------------------------------
  // What the search tries and what it finds.

  /** A combination tried for a subset lists the subset's members in
      order, each with one of its choices, and the subset has a member
      with options. */
  lemma {:induction false} SubsetComboShape(opts: Options, sincere: seq<Ballot>, subset: seq<nat>, combo: Combination)
    requires Below(subset, |sincere|) && combo in SubsetCombos(opts, sincere, subset)
    ensures Eligible(opts, subset) && Voters(combo) == subset
    ensures forall j :: 0 <= j < |combo| ==> combo[j] in Choices(opts, sincere, subset[j])
  {
    var lists := VoterOptions(opts, sincere, subset);
    var all := Product(lists);
    var i :| 0 <= i < |all| && all[i] == combo;
    assert |combo| == |subset|;
    forall j | 0 <= j < |combo|
      ensures combo[j] in Choices(opts, sincere, subset[j]) && combo[j].0 == subset[j]
    {
      assert combo[j] in lists[j];
      ChoicesMeaning(opts, sincere, subset[j], combo[j]);
    }
    assert Voters(combo) == subset;
  }

  /** Every combination `analyse` tries has between 2 and `top - 1`
      distinct voters of the situation, at least one with options, each
      casting one of its choices. */
  lemma {:induction false} ComboShape(opts: Options, sincere: seq<Ballot>, top: nat, combo: Combination)
    requires combo in SizesCombos(opts, sincere, top)
    ensures 2 <= |combo| < top && Distinct(Voters(combo))
    ensures forall j :: 0 <= j < |combo| ==> combo[j].0 < |sincere|
    ensures exists j :: 0 <= j < |combo| && combo[j].0 in Keys(opts)
    ensures forall j :: 0 <= j < |combo| ==> combo[j].0 < |sincere| && combo[j] in Choices(opts, sincere, combo[j].0)
  {
    var sizes := SizeBlocks(opts, sincere, top);
    FlattenMember(sizes, combo);
    var i :| 0 <= i < |sizes| && combo in sizes[i];
    var subsets := Subsets(|sincere|, i + 2);
    var blocks := Blocks(opts, sincere, subsets);
    FlattenMember(blocks, combo);
    var k :| 0 <= k < |blocks| && combo in blocks[k];
    var subset := subsets[k];
    SubsetComboShape(opts, sincere, subset, combo);
    var j :| 0 <= j < |subset| && subset[j] in Keys(opts);
    assert combo[j].0 == subset[j];
  }

  /** Every choice of one option per member of a listed subset where some
      member has options is among the combinations tried for its size. */
  lemma {:induction false} ComboInSize(opts: Options, sincere: seq<Ballot>, size: nat, k: nat, combo: Combination)
    requires k < |Subsets(|sincere|, size)|
    requires Eligible(opts, Subsets(|sincere|, size)[k])
    requires |combo| == size
    requires forall j :: 0 <= j < size ==> combo[j] in Choices(opts, sincere, Subsets(|sincere|, size)[k][j])
    ensures combo in SizeCombos(opts, sincere, size)
  {
    var subsets := Subsets(|sincere|, size);
    var lists := VoterOptions(opts, sincere, subsets[k]);
    ProductComplete(lists, combo);
    var blocks := Blocks(opts, sincere, subsets);
    assert combo in blocks[k];
    FlattenMember(blocks, combo);
  }

  /** Every choice of one option per member, for a listed subset of 2 up
      to `top - 1` voters where some member has options, is tried. */
  lemma {:induction false} ComboTried(opts: Options, sincere: seq<Ballot>, top: nat, size: nat, k: nat, combo: Combination)
    requires 2 <= size < top && k < |Subsets(|sincere|, size)|
    requires Eligible(opts, Subsets(|sincere|, size)[k])
    requires |combo| == size
    requires forall j :: 0 <= j < size ==> combo[j] in Choices(opts, sincere, Subsets(|sincere|, size)[k][j])
    ensures combo in SizesCombos(opts, sincere, top)
  {
    ComboInSize(opts, sincere, size, k, combo);
    var sizes := SizeBlocks(opts, sincere, top);
    assert combo in sizes[size - 2];
    FlattenMember(sizes, combo);
  }

  /** The honest outcome and the options of a successful analysis. */
  lemma {:induction false} AnalysedHonest(c: Collaborators, sincere: seq<Ballot>, s: VotingScheme, f: HappinessFunc, t: StrategyType,
                       maxVoters: int)
    requires Analysed(c, sincere, s, f, t, maxVoters).Ok?
    ensures Evaluate(c, IsRankedMetric(f), f, s, sincere, sincere).Ok?
    ensures var (w, h) := Evaluate(c, IsRankedMetric(f), f, s, sincere, sincere).value;
            Analysed(c, sincere, s, f, t, maxVoters) == Searched(c, sincere, s, f, t, maxVoters, w, h)
  {
  }

  /** `individual_opportunities` lists, in increasing order, exactly the
      voters whose strategy search finds a ballot; `has_individual_strategic`
      says there is one. */
  lemma {:induction false} AnalysedIndividual(c: Collaborators, sincere: seq<Ballot>, s: VotingScheme, f: HappinessFunc, t: StrategyType,
                           maxVoters: int)
    requires Analysed(c, sincere, s, f, t, maxVoters).Ok?
    ensures var r := Analysed(c, sincere, s, f, t, maxVoters).value;
            (forall v: VoterId :: v in r.individual <==> v < |sincere| && Offers(c, sincere, s, f, t, v) != []) &&
            (forall i, j :: 0 <= i < j < |r.individual| ==> r.individual[i] < r.individual[j]) &&
            (r.hasIndividual <==> exists v: VoterId :: v < |sincere| && Offers(c, sincere, s, f, t, v) != [])
  {
    AnalysedHonest(c, sincere, s, f, t, maxVoters);
    var r := Analysed(c, sincere, s, f, t, maxVoters).value;
    var opts := OptionsUpTo(c, sincere, s, f, t, |sincere|);
    assert r.individual == KeyList(opts);
    OptionsMeaning(c, sincere, s, f, t, |sincere|);
    forall v: VoterId
      ensures v in r.individual <==> v < |sincere| && Offers(c, sincere, s, f, t, v) != []
    {
      OptionsGet(c, sincere, s, f, t, |sincere|, v);
      if v in r.individual {
        var i :| 0 <= i < |r.individual| && r.individual[i] == v;
        assert opts[i] in opts;
      }
    }
    if r.hasIndividual {
      assert r.individual[0] in r.individual;
    }
  }

  /** An opportunity found for a tried combination names its voters. */
  lemma {:induction false} FoundShape(e: Setting, opts: Options, top: nat, combo: Combination, o: Opportunity)
    requires combo in SizesCombos(opts, e.sincere, top) && Evaluation(e, combo) == Ok(Some(o))
    ensures 2 <= o.numVoters < top && o.numVoters == |o.voterIds| && Distinct(o.voterIds)
    ensures forall j :: 0 <= j < |o.voterIds| ==> o.voterIds[j] < |e.sincere|
  {
    EvaluationMeaning(e, combo);
    ComboShape(opts, e.sincere, top, combo);
  }

  /** The multi-voter search finds an opportunity exactly when some tried
      combination is beneficial, and each one it finds involves between 2
      and `top - 1` distinct voters of the situation. */
  lemma {:induction false} SearchMeaning(e: Setting, opts: Options, top: nat, found: seq<Opportunity>)
    requires Gather(Ok([]), Evaluations(e, SizesCombos(opts, e.sincere, top))) == Ok(found)
    ensures var combos := SizesCombos(opts, e.sincere, top);
            |found| > 0 <==> exists i :: 0 <= i < |combos| && Evaluation(e, combos[i]).Ok? && Evaluation(e, combos[i]).value.Some?
    ensures forall o :: o in found ==>
              2 <= o.numVoters < top && o.numVoters == |o.voterIds| && Distinct(o.voterIds) &&
              forall j :: 0 <= j < |o.voterIds| ==> o.voterIds[j] < |e.sincere|
  {
    var combos := SizesCombos(opts, e.sincere, top);
    var outs := Evaluations(e, combos);
    GatherMeaning(outs);
    if |found| > 0 {
      assert found[0] in found;
      var i :| 0 <= i < |outs| && outs[i] == Ok(Some(found[0]));
      assert Evaluation(e, combos[i]).Ok? && Evaluation(e, combos[i]).value.Some?;
    }
    forall o | o in found
      ensures 2 <= o.numVoters < top && o.numVoters == |o.voterIds| && Distinct(o.voterIds) &&
              forall j :: 0 <= j < |o.voterIds| ==> o.voterIds[j] < |e.sincere|
    {
      var i :| 0 <= i < |outs| && outs[i] == Ok(Some(o));
      FoundShape(e, opts, top, combos[i], o);
    }
  }

  /** Every multi-voter opportunity `analyse` reports involves between 2
      and `max_strategic_voters` distinct voters of the situation, and
      `has_multi_voter_strategic` holds exactly when some tried
      combination is beneficial. */
  lemma {:induction false} AnalysedMulti(c: Collaborators, sincere: seq<Ballot>, s: VotingScheme, f: HappinessFunc, t: StrategyType,
                      maxVoters: int)
    requires Analysed(c, sincere, s, f, t, maxVoters).Ok?
    ensures var (w, h) := Evaluate(c, IsRankedMetric(f), f, s, sincere, sincere).value;
            var e := Setting(c, f, s, sincere, h.individual);
            var combos := SizesCombos(OptionsUpTo(c, sincere, s, f, t, |sincere|), sincere, Top(maxVoters, |sincere|));
            var r := Analysed(c, sincere, s, f, t, maxVoters).value;
            (r.hasMulti <==> exists i :: 0 <= i < |combos| && Evaluation(e, combos[i]).Ok? && Evaluation(e, combos[i]).value.Some?) &&
            (forall o :: o in r.multi ==>
               2 <= o.numVoters <= maxVoters && o.numVoters <= |sincere| &&
               o.numVoters == |o.voterIds| && Distinct(o.voterIds) &&
               forall j :: 0 <= j < |o.voterIds| ==> o.voterIds[j] < |sincere|)
  {
    AnalysedHonest(c, sincere, s, f, t, maxVoters);
    var (w, h) := Evaluate(c, IsRankedMetric(f), f, s, sincere, sincere).value;
    var e := Setting(c, f, s, sincere, h.individual);
    var opts := OptionsUpTo(c, sincere, s, f, t, |sincere|);
    var r := Analysed(c, sincere, s, f, t, maxVoters).value;
    SearchMeaning(e, opts, Top(maxVoters, |sincere|), r.multi);
  }
}
