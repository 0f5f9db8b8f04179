/** tva/models/ATVA4.py: the analyst that lets several voters vote
    strategically at once. Every subset of two up to `max_strategic_voters`
    voters that holds a voter with strategic options is tried with every
    combination of its members' options (members without options keep
    their sincere ballot); a combination is an opportunity when some listed
    voter gains, scored against the sincere ballots. `analyse_multiple`
    takes, per repetition, the largest coalition found. */
module Atva4 {
  import opened Common
  import opened Dicts
  import opened Collaborators
  import opened Itertools

  /** `voter_preferences`: the listed voters, each with the ballot it casts. */
  type Combination = seq<(VoterId, Ballot)>

  /** The dict `evaluate_strategic_combination` returns for a beneficial
      combination. */
  datatype Opportunity = Opportunity(
    voterIds: seq<VoterId>,
    newWinner: Candidate,
    newTotal: real,
    gains: Dict<VoterId, real>,
    totalChange: real,
    strategicPreferences: Dict<VoterId, Ballot>,
    numVoters: nat,
    collective: bool)

  /** What one analysis holds fixed: the collaborators, the metric, the
      scheme, the sincere ballots (`situation.voters`) and the honest
      per-voter happiness. */
  datatype Setting = Setting(c: Collaborators, f: HappinessFunc, s: VotingScheme,
                             sincere: seq<Ballot>, honest: map<VoterId, real>)

  /** `[voter_id for voter_id, _ in voter_preferences]`. */
  function Voters(combo: Combination): (r: seq<VoterId>)
    ensures |r| == |combo| && forall j :: 0 <= j < |combo| ==> r[j] == combo[j].0
  {
    seq(|combo|, j requires 0 <= j < |combo| => combo[j].0)
  }

  /** The dict filled by storing `pairs` in order (`dict(pairs)`, or
      `d[k] = v` in a loop): a later entry for the same key overwrites the
      earlier one in place. */
  function DictOf<V(==)>(pairs: seq<(VoterId, V)>): Dict<VoterId, V>
  {
    if pairs == [] then []
    else Put(DictOf(pairs[..|pairs| - 1]), pairs[|pairs| - 1].0, pairs[|pairs| - 1].1)
  }

  /** Storing one more pair. */
  lemma DictOfSnoc<V>(pairs: seq<(VoterId, V)>, x: (VoterId, V))
    ensures DictOf(pairs + [x]) == Put(DictOf(pairs), x.0, x.1)
  {
    assert (pairs + [x])[..|pairs|] == pairs;
  }

  /** The dict has no repeated key, and exactly the keys of the pairs. */
  lemma {:induction false} DictOfKeys<V>(pairs: seq<(VoterId, V)>)
    ensures KeysDistinct(DictOf(pairs)) && Keys(DictOf(pairs)) == Keys(pairs)
    decreases |pairs|
  {
    if pairs != [] {
      var n := |pairs| - 1;
      DictOfKeys(pairs[..n]);
      PutDistinct(DictOf(pairs[..n]), pairs[n].0, pairs[n].1);
      KeysSnoc(pairs);
    }
  }

  /** The dict holds each pair whose key does not come again later. */
  lemma {:induction false} DictOfHolds<V>(pairs: seq<(VoterId, V)>, j: nat)
    requires j < |pairs| && forall i :: j < i < |pairs| ==> pairs[i].0 != pairs[j].0
    ensures pairs[j] in DictOf(pairs)
    decreases |pairs|
  {
    var n := |pairs| - 1;
    var init := pairs[..n];
    if j < n {
      assert forall i :: j < i < n ==> init[i] == pairs[i];
      DictOfHolds(init, j);
      assert init[j] == pairs[j] && pairs[j].0 != pairs[n].0;
    }
  }

  /** `sum(d.values())`, taking the keys in increasing order. */
  function SumValues(d: map<VoterId, real>): real
    decreases |d|
  {
    if |d| == 0 then 0.0
    else
      LeastKeyExists(d.Keys);
      var k :| IsLeast(k, d.Keys);
      d[k] + SumValues(d - {k})
  }

  /** The honest situation's total, as `evaluate_strategic_combination` computes it. */
  function HonestTotal(e: Setting): real
  {
    SumValues(e.honest)
  }

  predicate IsLeast(k: VoterId, keys: set<VoterId>)
  {
    k in keys && forall j :: j in keys ==> k <= j
  }

  lemma LeastKeyExists(keys: set<VoterId>)
    requires keys != {}
    ensures exists k :: IsLeast(k, keys)
  {
    var x :| x in keys;
    if keys - {x} != {} {
      LeastKeyExists(keys - {x});
      var k :| IsLeast(k, keys - {x});
      var least := if x < k then x else k;
      forall j | j in keys
        ensures least <= j
      {
        if j != x {
          assert j in keys - {x};
        }
      }
      assert IsLeast(least, keys);
    } else {
      assert keys == {x};
      assert IsLeast(x, keys);
    }
  }

  // ---------------------------------------------------------------------
  // The test situation.

  /** The ballots of `test_situation`: a copy of `ballots` with each listed
      voter's ballot overwritten, in order; a voter id past the end raises
      IndexError. */
  function Applied(ballots: seq<Ballot>, combo: Combination): Result<seq<Ballot>>
    decreases |combo|
  {
    if combo == [] then Ok(ballots)
    else
      match Applied(ballots, combo[..|combo| - 1])
      case Err(e) => Err(e)
      case Ok(test) =>
        var (v, p) := combo[|combo| - 1];
        if v < |test| then Ok(test[v := p]) else Err(IndexError)
  }

  /** The loop of evaluate_strategic_combination that writes the
      combination into a copy of the situation. */
  method ApplyCombination(ballots: seq<Ballot>, combo: Combination) returns (r: Result<seq<Ballot>>)
    ensures r == Applied(ballots, combo)
  {
    var test := ballots;
    for k := 0 to |combo|
      invariant Applied(ballots, combo[..k]) == Ok(test)
    {
      assert combo[..k + 1][..k] == combo[..k];
      var (v, p) := combo[k];
      if v >= |test| {
        AppliedRaises(ballots, combo, k + 1);
        return Err(IndexError);
      }
      test := test[v := p];
    }
    assert combo[..|combo|] == combo;
    return Ok(test);
  }

  /** Once a prefix of the combination raises, the whole write raises the
      same error. */
  lemma {:induction false} AppliedRaises(ballots: seq<Ballot>, combo: Combination, k: nat)
    requires k <= |combo| && Applied(ballots, combo[..k]).Err?
    ensures Applied(ballots, combo) == Applied(ballots, combo[..k])
    decreases |combo| - k
  {
    if k < |combo| {
      var n := |combo| - 1;
      assert combo[..n][..k] == combo[..k];
      AppliedRaises(ballots, combo[..n], k);
    } else {
      assert combo[..k] == combo;
    }
  }

  /** The write succeeds exactly when every listed voter has a ballot;
      then the copy has as many ballots, a voter not listed keeps its
      sincere ballot, and a listed voter holds the ballot of its last
      entry. */
  lemma {:induction false} AppliedMeaning(ballots: seq<Ballot>, combo: Combination)
    ensures Applied(ballots, combo).Ok? <==> forall j :: 0 <= j < |combo| ==> combo[j].0 < |ballots|
    ensures Applied(ballots, combo).Ok? ==>
              var test := Applied(ballots, combo).value;
              |test| == |ballots| &&
              (forall i :: 0 <= i < |ballots| && i !in Voters(combo) ==> test[i] == ballots[i]) &&
              (forall j :: 0 <= j < |combo| && combo[j].0 !in Voters(combo[j + 1..]) ==> test[combo[j].0] == combo[j].1)
    decreases |combo|
  {
    if combo != [] {
      var n := |combo| - 1;
      var init := combo[..n];
      AppliedMeaning(ballots, init);
      assert forall j :: 0 <= j < n ==> init[j] == combo[j];
      if Applied(ballots, combo).Ok? {
        var test := Applied(ballots, init).value;
        var (v, p) := combo[n];
        forall i | 0 <= i < |ballots| && i !in Voters(combo)
          ensures Applied(ballots, combo).value[i] == ballots[i]
        {
          assert Voters(combo)[n] == v;
        }
        forall j | 0 <= j < |combo| && combo[j].0 !in Voters(combo[j + 1..])
          ensures Applied(ballots, combo).value[combo[j].0] == combo[j].1
        {
          if j < n {
            assert Voters(combo[j + 1..])[n - j - 1] == v;
          }
        }
      }
    }
  }

  // ---------------------------------------------------------------------
  // _is_effective_alone.

  /** `_is_effective_alone`: the voter's ballot from its first entry in the
      combination, written alone into a copy of the sincere ballots; the
      outcome (its ranking for ranked metrics, its winner otherwise) is
      scored against the sincere ballots, and the voter is better off than
      honest. A voter id past the end raises IndexError, a missing
      happiness entry KeyError. */
  function EffectiveAlone(e: Setting, combo: Combination, v: VoterId): Result<bool>
    requires v in Voters(combo)
  {
    var p := combo[FirstIndex(Voters(combo), v)].1;
    if v < |e.sincere| then
      var h := HappinessOf(e.c, IsRankedMetric(e.f), e.f, e.s, e.sincere[v := p], e.sincere);
      match Index(e.honest, v)
      case Err(err) => Err(err)
      case Ok(was) =>
        match Index(h.individual, v)
        case Err(err) => Err(err)
        case Ok(now) => Ok(now > was)
    else Err(IndexError)
  }

  method IsEffectiveAlone(e: Setting, combo: Combination, v: VoterId) returns (r: Result<bool>)
    requires v in Voters(combo)
    ensures r == EffectiveAlone(e, combo, v)
  {
    var k := 0;
    while combo[k].0 != v
      invariant k <= FirstIndex(Voters(combo), v)
      decreases FirstIndex(Voters(combo), v) - k
    {
      assert Voters(combo)[k] != v;
      k := k + 1;
    }
    assert Voters(combo)[k] == v && v !in Voters(combo)[..FirstIndex(Voters(combo), v)];
    assert k == FirstIndex(Voters(combo), v);
    var p := combo[k].1;
    if v >= |e.sincere| {
      return Err(IndexError);
    }
    var solo := e.sincere[v := p];
    var h;
    if e.f == KendallTau || e.f == WeightedPositional {
      var ranking := e.c.ranking(e.s, solo);
      h := e.c.calculateRanked(e.sincere, ranking, e.f);
    } else {
      var w := e.c.winner(e.s, solo);
      h := e.c.calculate(e.sincere, w, e.f);
    }
    if v !in e.honest || v !in h.individual {
      return Err(KeyError);
    }
    return Ok(h.individual[v] > e.honest[v]);
  }

  /** Acting alone changes only the voter's own ballot, to its first entry
      in the combination: for any such copy of the sincere ballots, the
      check succeeds exactly when the voter exists and both happiness
      entries exist, and says whether the voter's happiness, scored
      against the sincere ballots, is strictly above its honest
      happiness. */
  lemma EffectiveAloneMeaning(e: Setting, combo: Combination, v: VoterId, solo: seq<Ballot>)
    requires v in Voters(combo) && |solo| == |e.sincere| && v < |solo|
    requires solo[v] == combo[FirstIndex(Voters(combo), v)].1
    requires forall i :: 0 <= i < |solo| && i != v ==> solo[i] == e.sincere[i]
    ensures var h := HappinessOf(e.c, IsRankedMetric(e.f), e.f, e.s, solo, e.sincere).individual;
            var r := EffectiveAlone(e, combo, v);
            (r.Ok? <==> v in e.honest && v in h) &&
            (r.Ok? ==> (r.value <==> h[v] > e.honest[v]))
  {
    assert solo == e.sincere[v := combo[FirstIndex(Voters(combo), v)].1];
  }

  // ---------------------------------------------------------------------
  // The gains loop of evaluate_strategic_combination.

  /** The gains stored into `individual_gains` so far, in order, and
      `any_voter_benefits` and `collective_action_required` while the
      loop runs. */
  datatype Flags = Flags(entries: seq<(VoterId, real)>, anyBenefits: bool, collective: bool)

  /** Voter `v` has both happiness entries and strictly gains. */
  predicate Benefits(e: Setting, h: map<VoterId, real>, v: VoterId)
  {
    v in e.honest && v in h && h[v] - e.honest[v] > 0.0
  }

  /** The voter listed `j`-th benefits in a combination of several voters
      and is better off acting alone as well. */
  predicate SoloEffective(e: Setting, combo: Combination, h: map<VoterId, real>, j: nat)
    requires j < |combo|
  {
    |combo| > 1 && Benefits(e, h, combo[j].0) && EffectiveAlone(e, combo, combo[j].0) == Ok(true)
  }

  /** `new_happiness - old_happiness` for voter `v`: KeyError when either
      happiness entry is missing. */
  function Gain(e: Setting, h: map<VoterId, real>, v: VoterId): (r: Result<real>)
    ensures r.Err? <==> v !in e.honest || v !in h
    ensures r.Err? ==> r == Err(KeyError)
    ensures r.Ok? ==> r.value == h[v] - e.honest[v]
  {
    if v !in e.honest || v !in h then Err(KeyError) else Ok(h[v] - e.honest[v])
  }

  /** The flags after recording gain `g` of voter `v`: a gain makes the
      combination beneficial, and in a multi-voter combination the
      voter's solo check `solo`, consulted only then, clears
      `collective_action_required` when the voter is effective alone. */
  function Record(acc: Flags, v: VoterId, g: real, multi: bool, solo: Result<bool>): Result<Flags>
  {
    var gains := acc.entries + [(v, g)];
    if g > 0.0 && multi then
      if solo.Err? then Err(solo.raised) else Ok(Flags(gains, true, acc.collective && !solo.value))
    else Ok(Flags(gains, acc.anyBenefits || g > 0.0, acc.collective))
  }

  /** The loop body for the `k`-th listed voter. */
  function GainStep(e: Setting, combo: Combination, h: map<VoterId, real>, acc: Flags, k: nat): Result<Flags>
    requires k < |combo|
  {
    var v := combo[k].0;
    match Gain(e, h, v)
    case Err(err) => Err(err)
    case Ok(g) => Record(acc, v, g, |combo| > 1, EffectiveAlone(e, combo, v))
  }

  /** The flags after the first `k` listed voters. */
  function Gains(e: Setting, combo: Combination, h: map<VoterId, real>, k: nat): Result<Flags>
    requires k <= |combo|
  {
    if k == 0 then Ok(Flags([], false, true))
    else Continue(e, combo, h, Gains(e, combo, h, k - 1), k - 1)
  }

  /** The loop after an earlier step: an error stands, otherwise the
      `k`-th step runs. */
  function Continue(e: Setting, combo: Combination, h: map<VoterId, real>, acc: Result<Flags>, k: nat): Result<Flags>
    requires k < |combo|
  {
    if acc.Err? then acc else GainStep(e, combo, h, acc.value, k)
  }

  /** The `k`-th step raises nothing exactly when the voter has both
      happiness entries and, benefiting in a multi-voter combination, its
      solo check raises nothing. */
  lemma GainStepOk(e: Setting, combo: Combination, h: map<VoterId, real>, acc: Flags, k: nat)
    requires k < |combo|
    ensures GainStep(e, combo, h, acc, k).Ok? <==>
              combo[k].0 in e.honest && combo[k].0 in h &&
              (|combo| > 1 && Benefits(e, h, combo[k].0) ==> EffectiveAlone(e, combo, combo[k].0).Ok?)
  {
  }

  /** The `k`-th step sets `any_voter_benefits` when the voter benefits and
      clears `collective_action_required` when it is effective alone. */
  lemma GainStepFlags(e: Setting, combo: Combination, h: map<VoterId, real>, acc: Flags, k: nat)
    requires k < |combo| && GainStep(e, combo, h, acc, k).Ok?
    ensures GainStep(e, combo, h, acc, k).value.anyBenefits == (acc.anyBenefits || Benefits(e, h, combo[k].0))
    ensures GainStep(e, combo, h, acc, k).value.collective == (acc.collective && !SoloEffective(e, combo, h, k))
  {
  }

  /** The `k`-th step records the voter's gain under its id. */
  lemma GainStepGains(e: Setting, combo: Combination, h: map<VoterId, real>, acc: Flags, k: nat)
    requires k < |combo| && GainStep(e, combo, h, acc, k).Ok?
    ensures combo[k].0 in e.honest && combo[k].0 in h
    ensures GainStep(e, combo, h, acc, k).value.entries == acc.entries + [(combo[k].0, h[combo[k].0] - e.honest[combo[k].0])]
  {
  }

  /** The gains loop raises nothing exactly when each listed voter has
      both happiness entries, and the solo check of each benefiting voter
      of a multi-voter combination raises nothing. */
  lemma {:induction false} GainsOk(e: Setting, combo: Combination, h: map<VoterId, real>, k: nat)
    requires k <= |combo|
    ensures Gains(e, combo, h, k).Ok? <==>
              forall j :: 0 <= j < k ==>
                combo[j].0 in e.honest && combo[j].0 in h &&
                (|combo| > 1 && Benefits(e, h, combo[j].0) ==> EffectiveAlone(e, combo, combo[j].0).Ok?)
    decreases k
  {
    if k > 0 {
      GainsOk(e, combo, h, k - 1);
      if Gains(e, combo, h, k - 1).Ok? {
        GainStepOk(e, combo, h, Gains(e, combo, h, k - 1).value, k - 1);
      }
    }
  }

  /** The combination is beneficial exactly when some listed voter gains. */
  lemma {:induction false} GainsAny(e: Setting, combo: Combination, h: map<VoterId, real>, k: nat)
    requires k <= |combo| && Gains(e, combo, h, k).Ok?
    ensures Gains(e, combo, h, k).value.anyBenefits <==> exists j :: 0 <= j < k && Benefits(e, h, combo[j].0)
    decreases k
  {
    if k > 0 {
      var acc := Gains(e, combo, h, k - 1);
      assert acc.Ok?;
      GainsAny(e, combo, h, k - 1);
      GainsNext(e, combo, h, k - 1);
      GainStepFlags(e, combo, h, acc.value, k - 1);
      assert Gains(e, combo, h, k).value.anyBenefits == (acc.value.anyBenefits || Benefits(e, h, combo[k - 1].0));
      if acc.value.anyBenefits {
        var j :| 0 <= j < k - 1 && Benefits(e, h, combo[j].0);
        assert 0 <= j < k && Benefits(e, h, combo[j].0);
      } else if Benefits(e, h, combo[k - 1].0) {
        assert 0 <= k - 1 < k && Benefits(e, h, combo[k - 1].0);
      } else {
        forall j | 0 <= j < k
          ensures !Benefits(e, h, combo[j].0)
        {
          if j < k - 1 {
            assert !(0 <= j < k - 1 && Benefits(e, h, combo[j].0));
          }
        }
      }
    }
  }

  /** `collective_action_required` stays set exactly when no benefiting
      voter of a multi-voter combination is effective alone. */
  lemma {:induction false} GainsCollective(e: Setting, combo: Combination, h: map<VoterId, real>, k: nat)
    requires k <= |combo| && Gains(e, combo, h, k).Ok?
    ensures Gains(e, combo, h, k).value.collective <==> !exists j :: 0 <= j < k && SoloEffective(e, combo, h, j)
    decreases k
  {
    if k > 0 {
      var acc := Gains(e, combo, h, k - 1);
      assert acc.Ok?;
      GainsCollective(e, combo, h, k - 1);
      GainsNext(e, combo, h, k - 1);
      GainStepFlags(e, combo, h, acc.value, k - 1);
      if Gains(e, combo, h, k).value.collective {
        forall j | 0 <= j < k
          ensures !SoloEffective(e, combo, h, j)
        {
          if j < k - 1 {
            assert !(0 <= j < k - 1 && SoloEffective(e, combo, h, j));
          }
        }
      } else if !acc.value.collective {
        var j :| 0 <= j < k - 1 && SoloEffective(e, combo, h, j);
        assert 0 <= j < k && SoloEffective(e, combo, h, j);
      } else {
        assert 0 <= k - 1 < k && SoloEffective(e, combo, h, k - 1);
      }
    }
  }

  /** The loop stores, for each listed voter in order, its new minus its
      honest happiness. */
  lemma {:induction false} GainsEntries(e: Setting, combo: Combination, h: map<VoterId, real>, k: nat)
    requires k <= |combo| && Gains(e, combo, h, k).Ok?
    ensures |Gains(e, combo, h, k).value.entries| == k
    ensures forall j :: 0 <= j < k ==>
              combo[j].0 in e.honest && combo[j].0 in h &&
              Gains(e, combo, h, k).value.entries[j] == (combo[j].0, h[combo[j].0] - e.honest[combo[j].0])
    decreases k
  {
    if k > 0 {
      var acc := Gains(e, combo, h, k - 1);
      assert acc.Ok?;
      GainsEntries(e, combo, h, k - 1);
      GainsNext(e, combo, h, k - 1);
      GainStepGains(e, combo, h, acc.value, k - 1);
      var entries := Gains(e, combo, h, k).value.entries;
      forall j | 0 <= j < k
        ensures combo[j].0 in e.honest && combo[j].0 in h &&
                entries[j] == (combo[j].0, h[combo[j].0] - e.honest[combo[j].0])
      {
        if j < k - 1 {
          assert entries[j] == acc.value.entries[j];
        }
      }
    }
  }

  /** `individual_gains` has one key per listed voter. */
  lemma IndividualGainKeys(e: Setting, combo: Combination, h: map<VoterId, real>)
    requires Gains(e, combo, h, |combo|).Ok?
    ensures Keys(DictOf(Gains(e, combo, h, |combo|).value.entries)) == Keys(combo)
  {
    var entries := Gains(e, combo, h, |combo|).value.entries;
    GainsEntries(e, combo, h, |combo|);
    DictOfKeys(entries);
    SameKeys(entries, combo);
  }

  /** With distinct listed voters, `individual_gains` holds each voter's
      new minus its honest happiness. */
  lemma IndividualGains(e: Setting, combo: Combination, h: map<VoterId, real>)
    requires Gains(e, combo, h, |combo|).Ok? && Distinct(Voters(combo))
    ensures forall j :: 0 <= j < |combo| ==>
              combo[j].0 in e.honest && combo[j].0 in h &&
              (combo[j].0, h[combo[j].0] - e.honest[combo[j].0]) in DictOf(Gains(e, combo, h, |combo|).value.entries)
  {
    var entries := Gains(e, combo, h, |combo|).value.entries;
    GainsEntries(e, combo, h, |combo|);
    forall j | 0 <= j < |combo|
      ensures entries[j] in DictOf(entries)
    {
      forall i | j < i < |combo|
        ensures entries[i].0 != entries[j].0
      {
        assert Voters(combo)[j] != Voters(combo)[i];
      }
      DictOfHolds(entries, j);
    }
  }

  /** Two lists of pairs with the same keys position by position have the
      same key set. */
  lemma SameKeys<V, W>(a: seq<(VoterId, V)>, b: seq<(VoterId, W)>)
    requires |a| == |b| && forall j :: 0 <= j < |a| ==> a[j].0 == b[j].0
    ensures Keys(a) == Keys(b)
  {
    forall k | k in Keys(a)
      ensures k in Keys(b)
    {
      var p :| p in a && p.0 == k;
      var j :| 0 <= j < |a| && a[j] == p;
      assert b[j] in b;
    }
    forall k | k in Keys(b)
      ensures k in Keys(a)
    {
      var p :| p in b && p.0 == k;
      var j :| 0 <= j < |b| && b[j] == p;
      assert a[j] in a;
    }
  }

  // ---------------------------------------------------------------------
  // evaluate_strategic_combination.

  /** evaluate_strategic_combination: the combination written into a copy
      of the situation; its outcome (for ranked metrics the ranking, whose
      first entry is the new winner, otherwise the winner) scored against
      the sincere ballots; the result dict when some listed voter gains,
      `None` otherwise. */
  function Evaluation(e: Setting, combo: Combination): Result<Option<Opportunity>>
  {
    match Applied(e.sincere, combo)
    case Err(err) => Err(err)
    case Ok(test) =>
      match Evaluate(e.c, IsRankedMetric(e.f), e.f, e.s, test, e.sincere)
      case Err(err) => Err(err)
      case Ok(outcome) => Scored(e, combo, outcome.0, outcome.1)
  }

  /** The gains loop on the new outcome (winner `w`, happiness `h`), and
      the result dict when some listed voter gains. */
  function Scored(e: Setting, combo: Combination, w: Candidate, h: Happy): Result<Option<Opportunity>>
  {
    match Gains(e, combo, h.individual, |combo|)
    case Err(err) => Err(err)
    case Ok(flags) => Ok(Report(e, combo, w, h, flags))
  }

  /** The result dict, or `None` when no listed voter gains. */
  function Report(e: Setting, combo: Combination, w: Candidate, h: Happy, flags: Flags): Option<Opportunity>
  {
    if flags.anyBenefits then
      Some(Opportunity(Voters(combo), w, h.total, DictOf(flags.entries), h.total - HonestTotal(e),
                       DictOf(combo), |combo|, flags.collective))
    else None
  }

  method EvaluateStrategicCombination(e: Setting, combo: Combination) returns (r: Result<Option<Opportunity>>)
    ensures r == Evaluation(e, combo)
  {
    var test := ApplyCombination(e.sincere, combo);
    if test.Err? {
      assert Evaluation(e, combo) == Err(test.raised);
      return Err(test.raised);
    }
    var w, h;
    if e.f == KendallTau || e.f == WeightedPositional {
      var ranking := e.c.ranking(e.s, test.value);
      if ranking == [] {
        assert Evaluation(e, combo) == Err(IndexError);
        return Err(IndexError);
      }
      w := ranking[0];
      h := e.c.calculateRanked(e.sincere, ranking, e.f);
    } else {
      w := e.c.winner(e.s, test.value);
      h := e.c.calculate(e.sincere, w, e.f);
    }
    assert Evaluate(e.c, IsRankedMetric(e.f), e.f, e.s, test.value, e.sincere) == Ok((w, h));
    var flags := GainsOf(e, combo, h.individual);
    assert Evaluation(e, combo) == Scored(e, combo, w, h);
    if flags.Err? {
      return Err(flags.raised);
    }
    assert Scored(e, combo, w, h) == Ok(Report(e, combo, w, h, flags.value));
    if flags.value.anyBenefits {
      var opportunity := Opportunity(Voters(combo), w, h.total, DictOf(flags.value.entries), h.total - HonestTotal(e),
                                     DictOf(combo), |combo|, flags.value.collective);
      ghost var rep := Report(e, combo, w, h, flags.value);
      assert rep.Some?;
      assert rep.value.totalChange == h.total - HonestTotal(e);
      assert rep.value.voterIds == Voters(combo);
      assert rep.value.strategicPreferences == DictOf(combo);
      assert rep.value == opportunity;
      return Ok(Some(opportunity));
    }
    assert Report(e, combo, w, h, flags.value) == None;
    return Ok(None);
  }

  /** The loop over the listed voters, filling `individual_gains`. */
  method GainsOf(e: Setting, combo: Combination, h: map<VoterId, real>) returns (r: Result<Flags>)
    ensures r == Gains(e, combo, h, |combo|)
  {
    var acc := Flags([], false, true);
    for k := 0 to |combo|
      invariant Gains(e, combo, h, k) == Ok(acc)
    {
      GainsNext(e, combo, h, k);
      var next := GainOf(e, combo, h, acc, k);
      if next.Err? {
        GainsRaise(e, combo, h, k + 1, |combo|);
        return next;
      }
      acc := next.value;
    }
    return Ok(acc);
  }

  /** One pass of the loop: the `k`-th listed voter's gain, stored into
      `individual_gains`, and the flags it sets. */
  method GainOf(e: Setting, combo: Combination, h: map<VoterId, real>, acc: Flags, k: nat) returns (r: Result<Flags>)
    requires k < |combo|
    ensures r == GainStep(e, combo, h, acc, k)
  {
    GainStepCases(e, combo, h, acc, k);
    var v := combo[k].0;
    if v !in e.honest || v !in h {
      return Err(KeyError);
    }
    var gain := h[v] - e.honest[v];
    var anyBenefits, collective := acc.anyBenefits, acc.collective;
    if gain > 0.0 {
      anyBenefits := true;
      if |combo| > 1 {
        assert Voters(combo)[k] == v;
        var solo := IsEffectiveAlone(e, combo, v);
        if solo.Err? {
          return Err(solo.raised);
        }
        if solo.value {
          collective := false;
        }
      }
    }
    return Ok(Flags(acc.entries + [(v, gain)], anyBenefits, collective));
  }

  /** The flags after one more voter are those of its step. */
  lemma GainsNext(e: Setting, combo: Combination, h: map<VoterId, real>, k: nat)
    requires k < |combo| && Gains(e, combo, h, k).Ok?
    ensures Gains(e, combo, h, k + 1) == GainStep(e, combo, h, Gains(e, combo, h, k).value, k)
  {
  }

  /** The outcomes of one step, case by case. */
  lemma GainStepCases(e: Setting, combo: Combination, h: map<VoterId, real>, acc: Flags, k: nat)
    requires k < |combo|
    ensures var v := combo[k].0;
            var r := GainStep(e, combo, h, acc, k);
            (v !in e.honest || v !in h ==> r == Err(KeyError)) &&
            (v in e.honest && v in h ==>
               var g := h[v] - e.honest[v];
               var solo := EffectiveAlone(e, combo, v);
               if g > 0.0 && |combo| > 1 then
                 (solo.Err? ==> r == Err(solo.raised)) &&
                 (solo.Ok? ==> r == Ok(Flags(acc.entries + [(v, g)], true, acc.collective && !solo.value)))
               else r == Ok(Flags(acc.entries + [(v, g)], acc.anyBenefits || g > 0.0, acc.collective)))
  {
  }

  /** Once the loop raises, it raises the same error to the end. */
  lemma {:induction false} GainsRaise(e: Setting, combo: Combination, h: map<VoterId, real>, k: nat, n: nat)
    requires k <= n <= |combo| && Gains(e, combo, h, k).Err?
    ensures Gains(e, combo, h, n) == Gains(e, combo, h, k)
    decreases n - k
  {
    if k < n {
      GainsRaise(e, combo, h, k, n - 1);
    }
  }

  /** A listed voter id past the end of the situation raises IndexError. */
  lemma EvaluationOutOfRange(e: Setting, combo: Combination, j: nat)
    requires j < |combo| && combo[j].0 >= |e.sincere|
    ensures Evaluation(e, combo) == Err(IndexError)
  {
    AppliedMeaning(e.sincere, combo);
    AppliedRaiseKind(e.sincere, combo);
  }

  /** The write of a combination raises only IndexError. */
  lemma {:induction false} AppliedRaiseKind(ballots: seq<Ballot>, combo: Combination)
    ensures Applied(ballots, combo).Err? ==> Applied(ballots, combo) == Err(IndexError)
  {
    if combo != [] {
      AppliedRaiseKind(ballots, combo[..|combo| - 1]);
    }
  }

  /** An evaluated combination: the outcome is that of the combination
      written into the situation, scored against the sincere ballots; it
      is an opportunity exactly when some listed voter gains; the
      opportunity lists the combination's voters, counts them, and keeps
      `collective_action_required` exactly when no benefiting voter of a
      multi-voter combination is effective alone, so a single-voter
      combination always keeps it. */
  lemma EvaluationMeaning(e: Setting, combo: Combination)
    requires Evaluation(e, combo).Ok?
    ensures Applied(e.sincere, combo).Ok?
    ensures var h := HappinessOf(e.c, IsRankedMetric(e.f), e.f, e.s, Applied(e.sincere, combo).value, e.sincere);
            var r := Evaluation(e, combo).value;
            (r.Some? <==> exists j :: 0 <= j < |combo| && Benefits(e, h.individual, combo[j].0)) &&
            (r.Some? ==> r.value.voterIds == Voters(combo) && r.value.numVoters == |combo| &&
                         r.value.newTotal == h.total &&
                         (r.value.collective <==> !exists j :: 0 <= j < |combo| && SoloEffective(e, combo, h.individual, j)) &&
                         (|combo| <= 1 ==> r.value.collective))
  {
    var test := Applied(e.sincere, combo).value;
    var outcome := Evaluate(e.c, IsRankedMetric(e.f), e.f, e.s, test, e.sincere).value;
    assert Evaluation(e, combo) == Scored(e, combo, outcome.0, outcome.1);
    GainsAny(e, combo, outcome.1.individual, |combo|);
    GainsCollective(e, combo, outcome.1.individual, |combo|);
  }
}
