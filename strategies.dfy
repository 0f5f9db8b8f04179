/** tva/strategies.py: the in-place ballot manipulations of the strategic
    voters (compromising, burying), the one tactical option generated per
    voting scheme, and the strategic-risk formula. */
module Strategies {
  import opened Common
  import opened Situation
  import opened Dicts

  // ---------------------------------------------------------------------
  // The two in-place manipulations.

  /** compromising swaps the first two entries, burying the last two. */
  datatype Move = Compromise | Bury

  /** The ballot after the move, or IndexError when it has fewer than two
      entries (`preferences[1]` or `preferences[-2]` is out of range). */
  function MoveBallot(m: Move, b: Ballot): (r: Result<Ballot>)
    ensures r.Err? <==> |b| < 2
    ensures r.Err? ==> r == Err(IndexError)
    ensures r.Ok? ==> |r.value| == |b|
    ensures r.Ok? && m == Compromise ==>
              r.value[0] == b[1] && r.value[1] == b[0] && forall k :: 2 <= k < |b| ==> r.value[k] == b[k]
    ensures r.Ok? && m == Bury ==>
              r.value[|b| - 2] == b[|b| - 1] && r.value[|b| - 1] == b[|b| - 2] &&
              forall k :: 0 <= k < |b| - 2 ==> r.value[k] == b[k]
  {
    if |b| < 2 then Err(IndexError)
    else if m == Compromise then Ok(Swap(b, 0, 1))
    else Ok(Swap(b, |b| - 2, |b| - 1))
  }

  /** A move only reorders the ballot. */
  lemma MovePermutes(m: Move, b: Ballot)
    requires |b| >= 2
    ensures multiset(MoveBallot(m, b).value) == multiset(b)
  {
    if m == Compromise {
      SwapPermutes(b, 0, 1);
    } else {
      SwapPermutes(b, |b| - 2, |b| - 1);
    }
  }

  /** Applying a move twice gives the ballot back. */
  lemma MoveTwiceRestores(m: Move, b: Ballot)
    requires |b| >= 2
    ensures MoveBallot(m, MoveBallot(m, b).value) == Ok(b)
  {
    if m == Compromise {
      SwapTwice(b, 0, 1);
    } else {
      SwapTwice(b, |b| - 2, |b| - 1);
    }
  }

  lemma SwapTwice<T>(s: seq<T>, i: nat, j: nat)
    requires i < |s| && j < |s|
    ensures Swap(Swap(s, i, j), i, j) == s
  {
    var twice := Swap(Swap(s, i, j), i, j);
    forall k | 0 <= k < |s|
      ensures twice[k] == s[k]
    {
    }
    assert twice == s;
  }

  /** The position at which the pass over the matrix stops: the first
      strategic voter whose ballot is too short, or the end. */
  function Halt(ids: seq<VoterId>, strategic: seq<VoterId>, ballots: seq<Ballot>): (k: nat)
    requires |ids| == |ballots|
    ensures k <= |ballots|
    ensures k < |ballots| ==> ids[k] in strategic && |ballots[k]| < 2
    ensures forall i :: 0 <= i < k ==> ids[i] !in strategic || |ballots[i]| >= 2
  {
    if ballots == [] then 0
    else if ids[0] in strategic && |ballots[0]| < 2 then 0
    else 1 + Halt(ids[1..], strategic, ballots[1..])
  }

  /** The ballots after one pass of a move: strategic voters before the
      halting position are moved, every other ballot is kept. */
  function AfterMove(m: Move, ids: seq<VoterId>, strategic: seq<VoterId>, ballots: seq<Ballot>): (r: seq<Ballot>)
    requires |ids| == |ballots|
    ensures |r| == |ballots|
    ensures forall i :: 0 <= i < |r| && ids[i] !in strategic ==> r[i] == ballots[i]
    ensures forall i :: Halt(ids, strategic, ballots) <= i < |r| ==> r[i] == ballots[i]
    ensures forall i :: 0 <= i < |r| ==> |r[i]| == |ballots[i]|
    ensures forall i :: 0 <= i < Halt(ids, strategic, ballots) && ids[i] in strategic ==>
              r[i] == MoveBallot(m, ballots[i]).value
  {
    var k := Halt(ids, strategic, ballots);
    seq(|ballots|, i requires 0 <= i < |ballots| =>
      if i < k && ids[i] in strategic then MoveBallot(m, ballots[i]).value else ballots[i])
  }

  /** A pass of a move leaves every ballot a permutation of itself. */
  lemma AfterMovePermutes(m: Move, ids: seq<VoterId>, strategic: seq<VoterId>, ballots: seq<Ballot>)
    requires |ids| == |ballots|
    ensures forall i :: 0 <= i < |ballots| ==> multiset(AfterMove(m, ids, strategic, ballots)[i]) == multiset(ballots[i])
  {
    var r := AfterMove(m, ids, strategic, ballots);
    forall i | 0 <= i < |ballots|
      ensures multiset(r[i]) == multiset(ballots[i])
    {
      if i < Halt(ids, strategic, ballots) && ids[i] in strategic {
        MovePermutes(m, ballots[i]);
      }
    }
  }

  /** A completed pass, applied again, restores every ballot. */
  lemma AfterMoveTwiceRestores(m: Move, ids: seq<VoterId>, strategic: seq<VoterId>, ballots: seq<Ballot>)
    requires |ids| == |ballots| && Halt(ids, strategic, ballots) == |ballots|
    ensures Halt(ids, strategic, AfterMove(m, ids, strategic, ballots)) == |ballots|
    ensures AfterMove(m, ids, strategic, AfterMove(m, ids, strategic, ballots)) == ballots
  {
    var once := AfterMove(m, ids, strategic, ballots);
    var twice := AfterMove(m, ids, strategic, once);
    forall i | 0 <= i < |ballots|
      ensures twice[i] == ballots[i]
    {
      if ids[i] in strategic {
        MoveTwiceRestores(m, ballots[i]);
      }
    }
  }

  // ---------------------------------------------------------------------
  // The tactical option of get_strategic_options.

  /** The tactical swap: entries 0 and 2 when the ballot has more than two
      entries, else entries 0 and -1 (the last); an empty ballot raises
      IndexError. */
  function TacticalSwap(b: Ballot): (r: Result<Ballot>)
    ensures r.Err? <==> b == []
    ensures r.Err? ==> r == Err(IndexError)
    ensures r.Ok? ==> |r.value| == |b|
    ensures r.Ok? && |b| > 2 ==>
              r.value[0] == b[2] && r.value[2] == b[0] && forall k :: 0 < k < |b| && k != 2 ==> r.value[k] == b[k]
    ensures r.Ok? && |b| <= 2 ==> r.value[0] == b[|b| - 1] && r.value[|b| - 1] == b[0]
  {
    if b == [] then Err(IndexError)
    else if |b| > 2 then Ok(Swap(b, 0, 2))
    else Ok(Swap(b, 0, |b| - 1))
  }

  /** The tactical swap only reorders the ballot. */
  lemma TacticalSwapPermutes(b: Ballot)
    requires b != []
    ensures multiset(TacticalSwap(b).value) == multiset(b)
  {
    if |b| > 2 {
      SwapPermutes(b, 0, 2);
    } else {
      SwapPermutes(b, 0, |b| - 1);
    }
  }

  /** The tactical swap undoes itself. */
  lemma TacticalSwapTwiceRestores(b: Ballot)
    requires b != []
    ensures TacticalSwap(TacticalSwap(b).value) == Ok(b)
  {
    var twice := TacticalSwap(TacticalSwap(b).value).value;
    assert |twice| == |b|;
    forall k | 0 <= k < |b|
      ensures twice[k] == b[k]
    {
    }
    assert twice == b;
  }

  /** The methods get_strategic_options looks up by name on a Schemes
      instance built over an electorate (the voters' ids and ballots):
      `<scheme>_voting`, `<scheme>_happiness` (a dict from voter id to
      happiness) and `overall_happiness`. tva/schemes.py defines only the
      voting methods (module Schemes); the happiness methods are missing
      there, so the oracle supplies all three as given functions, and its
      `vote` is not tied to module Schemes. */
  datatype SchemeOracle = SchemeOracle(
    vote: (VotingScheme, seq<VoterId>, seq<Ballot>) -> Candidate,
    happiness: (VotingScheme, seq<VoterId>, seq<Ballot>, Candidate) -> map<VoterId, real>,
    overall: map<VoterId, real> -> real)

  /** The electorate a Schemes instance was built over. */
  datatype Electorate = Electorate(ids: seq<VoterId>, ballots: seq<Ballot>)

  /** The baseline per scheme: outcome, happiness dict and overall happiness
      of the `schemes_instance` passed in. */
  datatype Baseline = Baseline(outcome: Candidate, happiness: map<VoterId, real>, overall: real)

  function BaselineOf(o: SchemeOracle, inst: Electorate, s: VotingScheme): Baseline
  {
    var w := o.vote(s, inst.ids, inst.ballots);
    var h := o.happiness(s, inst.ids, inst.ballots, w);
    Baseline(w, h, o.overall(h))
  }

  /** One tactical option (the dict built at tva/strategies.py:112-119). */
  datatype TacticalOption = TacticalOption(
    modifiedPreferences: Ballot,
    votingOutcome: Candidate,
    modifiedVoterHappiness: Option<real>,
    originalVoterHappiness: Option<real>,
    modifiedOverallHappiness: real,
    originalOverallHappiness: real)

  /** A voter's options, keyed by scheme in insertion order (a dict). */
  type VoterOptions = Dict<VotingScheme, TacticalOption>

  /** Python's `dict.get(k, None)`. */
  function Lookup(m: map<VoterId, real>, k: VoterId): (r: Option<real>)
    ensures r.Some? <==> k in m
    ensures r.Some? ==> r.value == m[k]
  {
    if k in m then Some(m[k]) else None
  }

  /** The option for voter position i under scheme s: the tactical swap of
      its ballot, written into a copy of the electorate, scored by the
      oracle; the original values come from the baseline. */
  function OptionFor(o: SchemeOracle, inst: Electorate, ids: seq<VoterId>, ballots: seq<Ballot>, i: nat, s: VotingScheme): (r: Result<TacticalOption>)
    requires |ids| == |ballots| && i < |ballots|
    ensures r.Err? <==> ballots[i] == []
    ensures r.Ok? ==> r.value.modifiedPreferences == TacticalSwap(ballots[i]).value
    ensures r.Ok? ==> r.value.votingOutcome == o.vote(s, ids, ballots[i := r.value.modifiedPreferences])
    ensures r.Ok? ==>
              var h := o.happiness(s, ids, ballots[i := r.value.modifiedPreferences], r.value.votingOutcome);
              r.value.modifiedVoterHappiness == Lookup(h, ids[i]) && r.value.modifiedOverallHappiness == o.overall(h)
    ensures r.Ok? ==> r.value.originalVoterHappiness == Lookup(BaselineOf(o, inst, s).happiness, ids[i])
    ensures r.Ok? ==> r.value.originalOverallHappiness == BaselineOf(o, inst, s).overall
  {
    match TacticalSwap(ballots[i])
    case Err(e) => Err(e)
    case Ok(b) =>
      var copy := ballots[i := b];
      var w := o.vote(s, ids, copy);
      var h := o.happiness(s, ids, copy, w);
      Ok(TacticalOption(b, w, Lookup(h, ids[i]), Lookup(BaselineOf(o, inst, s).happiness, ids[i]), o.overall(h), BaselineOf(o, inst, s).overall))
  }

  /** The options of voter position i for the schemes in `schemes`, in order. */
  function OptionsOf(o: SchemeOracle, inst: Electorate, schemes: seq<VotingScheme>,
                     ids: seq<VoterId>, ballots: seq<Ballot>, i: nat): (r: Result<VoterOptions>)
    requires |ids| == |ballots| && i < |ballots|
    ensures r.Err? <==> schemes != [] && ballots[i] == []
    ensures r.Err? ==> r == Err(IndexError)
    ensures r.Ok? ==> Keys(r.value) == set s | s in schemes
    ensures r.Ok? ==> forall p :: p in r.value ==> p.0 in schemes && OptionFor(o, inst, ids, ballots, i, p.0) == Ok(p.1)
  {
    if schemes == [] then Ok([])
    else
      match OptionsOf(o, inst, schemes[..|schemes| - 1], ids, ballots, i)
      case Err(e) => Err(e)
      case Ok(acc) =>
        var s := schemes[|schemes| - 1];
        match OptionFor(o, inst, ids, ballots, i, s)
        case Err(e) => Err(e)
        case Ok(opt) =>
          assert schemes == schemes[..|schemes| - 1] + [s];
          PutEntries(acc, s, opt);
          Ok(Put(acc, s, opt))
  }

  /** The list returned by get_strategic_options, over the first n voters:
      one dict per voter, empty for a voter that is not strategic. */
  function AllOptions(o: SchemeOracle, inst: Electorate, schemes: seq<VotingScheme>,
                      ids: seq<VoterId>, strategic: seq<VoterId>, ballots: seq<Ballot>, n: nat): (r: Result<seq<VoterOptions>>)
    requires |ids| == |ballots| && n <= |ballots|
    ensures r.Err? ==> r == Err(IndexError)
    ensures r.Ok? ==> |r.value| == n
    ensures r.Ok? ==> forall i :: 0 <= i < n && ids[i] !in strategic ==> r.value[i] == []
    ensures r.Ok? ==> forall i :: 0 <= i < n && ids[i] in strategic ==>
              OptionsOf(o, inst, schemes, ids, ballots, i) == Ok(r.value[i])
  {
    if n == 0 then Ok([])
    else
      match AllOptions(o, inst, schemes, ids, strategic, ballots, n - 1)
      case Err(e) => Err(e)
      case Ok(acc) =>
        if ids[n - 1] in strategic then
          match OptionsOf(o, inst, schemes, ids, ballots, n - 1)
          case Err(e) => Err(e)
          case Ok(vo) => Ok(acc + [vo])
        else Ok(acc + [[]])
  }

  /** get_strategic_options raises exactly when some strategic voter among
      the first n has an empty ballot (and there is a scheme to try). */
  lemma {:induction false} AllOptionsFails(o: SchemeOracle, inst: Electorate, schemes: seq<VotingScheme>,
                                           ids: seq<VoterId>, strategic: seq<VoterId>, ballots: seq<Ballot>, n: nat)
    requires |ids| == |ballots| && n <= |ballots|
    ensures AllOptions(o, inst, schemes, ids, strategic, ballots, n).Err? <==>
              schemes != [] && exists i :: 0 <= i < n && ids[i] in strategic && ballots[i] == []
  {
    if n > 0 {
      AllOptionsFails(o, inst, schemes, ids, strategic, ballots, n - 1);
    }
  }

  /** An option's modified ballot is a permutation of the voter's sincere
      ballot, and the electorate it was scored on differs from the original
      only in that voter's ballot. */
  lemma OptionIsPermutation(o: SchemeOracle, inst: Electorate, ids: seq<VoterId>, ballots: seq<Ballot>, i: nat, s: VotingScheme)
    requires |ids| == |ballots| && i < |ballots| && ballots[i] != []
    ensures multiset(OptionFor(o, inst, ids, ballots, i, s).value.modifiedPreferences) == multiset(ballots[i])
    ensures var copy := ballots[i := OptionFor(o, inst, ids, ballots, i, s).value.modifiedPreferences];
            |copy| == |ballots| && forall j :: 0 <= j < |ballots| && j != i ==> copy[j] == ballots[j]
  {
    TacticalSwapPermutes(ballots[i]);
  }

  // ---------------------------------------------------------------------
  // compute_strategic_risk.

  /** The risk of one option: 0.3 * max(0, (H - H~) / H) + 0.3 * r_i with
      r_i = max(0, (H_i - H~_i) / H_i), or 0 when H_i = 0. H = 0 divides by
      zero; a missing (None) individual happiness raises TypeError. */
  function OptionRisk(opt: TacticalOption): (r: Result<real>)
    ensures r.Err? <==> (opt.originalOverallHappiness == 0.0 || opt.originalVoterHappiness.None? ||
              (opt.originalVoterHappiness.value != 0.0 && opt.modifiedVoterHappiness.None?))
    ensures r == Err(ZeroDivisionError) <==> opt.originalOverallHappiness == 0.0
    ensures r.Ok? ==> r.value >= 0.0
  {
    var h := opt.originalOverallHappiness;
    if h == 0.0 then Err(ZeroDivisionError)
    else
      var overall := Clamp((h - opt.modifiedOverallHappiness) / h);
      match opt.originalVoterHappiness
      case None => Err(TypeError)
      case Some(hi) =>
        if hi == 0.0 then Ok(0.3 * overall + 0.3 * 0.0)
        else
          match opt.modifiedVoterHappiness
          case None => Err(TypeError)
          case Some(mhi) => Ok(0.3 * overall + 0.3 * Clamp((hi - mhi) / hi))
  }

  /** `max(0, x)`. */
  function Clamp(x: real): (r: real)
    ensures r >= 0.0 && r >= x && (r == 0.0 || r == x)
  {
    if x < 0.0 then 0.0 else x
  }

  /** The risk values of a list of option dicts, flattened in order. */
  function RiskValues(opts: seq<VoterOptions>): (r: Result<seq<real>>)
    ensures r.Ok? ==> |r.value| == OptionCount(opts)
    ensures r.Ok? ==> forall k :: 0 <= k < |r.value| ==> r.value[k] >= 0.0
  {
    if opts == [] then Ok([])
    else
      match RiskValues(opts[..|opts| - 1])
      case Err(e) => Err(e)
      case Ok(init) =>
        match RiskList(opts[|opts| - 1])
        case Err(e) => Err(e)
        case Ok(last) => Ok(init + last)
  }

  /** The risk values of one voter's dict, in order. */
  function RiskList(d: VoterOptions): (r: Result<seq<real>>)
    ensures r.Ok? ==> |r.value| == |d|
    ensures r.Ok? ==> forall k :: 0 <= k < |r.value| ==> r.value[k] >= 0.0
  {
    if d == [] then Ok([])
    else
      match RiskList(d[..|d| - 1])
      case Err(e) => Err(e)
      case Ok(init) =>
        match OptionRisk(d[|d| - 1].1)
        case Err(e) => Err(e)
        case Ok(x) => Ok(init + [x])
  }

  /** The number of options over all voters. */
  function OptionCount(opts: seq<VoterOptions>): nat
  {
    if opts == [] then 0 else OptionCount(opts[..|opts| - 1]) + |opts[|opts| - 1]|
  }

  /** `sum(1 for options in strategic_options if options)`. */
  function VotersWithOptions(opts: seq<VoterOptions>): (n: nat)
    ensures n <= |opts|
  {
    if opts == [] then 0 else VotersWithOptions(opts[..|opts| - 1]) + (if opts[|opts| - 1] != [] then 1 else 0)
  }

  /** compute_strategic_risk, as a value: (fraction of voters with an
      option) * (mean option risk, 0.0 without options); num_voters = 0
      divides by zero. */
  function StrategicRisk(opts: seq<VoterOptions>, numVoters: int): Result<real>
  {
    match RiskValues(opts)
    case Err(e) => Err(e)
    case Ok(vals) =>
      var average := if vals == [] then 0.0 else SumReal(vals) / |vals| as real;
      if numVoters == 0 then Err(ZeroDivisionError)
      else Ok((VotersWithOptions(opts) as real / numVoters as real) * average)
  }

  lemma {:induction false} SumNonNegative(s: seq<real>)
    requires forall k :: 0 <= k < |s| ==> s[k] >= 0.0
    ensures SumReal(s) >= 0.0
    decreases |s|
  {
    if s != [] {
      SumNonNegative(s[..|s| - 1]);
    }
  }

  lemma {:induction false} SumBounded(s: seq<real>, b: real)
    requires forall k :: 0 <= k < |s| ==> s[k] <= b
    ensures SumReal(s) <= |s| as real * b
    decreases |s|
  {
    if s != [] {
      SumBounded(s[..|s| - 1], b);
    }
  }

  /** The overall risk is never negative for a positive number of voters. */
  lemma RiskNonNegative(opts: seq<VoterOptions>, numVoters: int)
    requires numVoters > 0 && StrategicRisk(opts, numVoters).Ok?
    ensures StrategicRisk(opts, numVoters).value >= 0.0
  {
    var vals := RiskValues(opts).value;
    var average := if vals == [] then 0.0 else SumReal(vals) / |vals| as real;
    SumNonNegative(vals);
    if vals != [] {
      QuotientNonNegative(SumReal(vals), |vals| as real);
    }
    var frac := VotersWithOptions(opts) as real / numVoters as real;
    QuotientNonNegative(VotersWithOptions(opts) as real, numVoters as real);
    ProductNonNegative(frac, average);
  }

  lemma QuotientNonNegative(a: real, b: real)
    requires a >= 0.0 && b > 0.0
    ensures a / b >= 0.0
  {
  }

  lemma ProductNonNegative(a: real, b: real)
    requires a >= 0.0 && b >= 0.0
    ensures a * b >= 0.0
  {
  }

  /** Without any option the risk is 0. */
  lemma RiskWithoutOptions(opts: seq<VoterOptions>, numVoters: int)
    requires numVoters != 0
    requires forall i :: 0 <= i < |opts| ==> opts[i] == []
    ensures StrategicRisk(opts, numVoters) == Ok(0.0)
  {
    NoOptionsCount(opts);
    RiskValuesEmpty(opts);
  }

  lemma {:induction false} RiskValuesEmpty(opts: seq<VoterOptions>)
    requires forall i :: 0 <= i < |opts| ==> opts[i] == []
    ensures RiskValues(opts) == Ok([])
    decreases |opts|
  {
    if opts != [] {
      RiskValuesEmpty(opts[..|opts| - 1]);
    }
  }

  lemma {:induction false} NoOptionsCount(opts: seq<VoterOptions>)
    requires forall i :: 0 <= i < |opts| ==> opts[i] == []
    ensures OptionCount(opts) == 0 && VotersWithOptions(opts) == 0
    decreases |opts|
  {
    if opts != [] {
      NoOptionsCount(opts[..|opts| - 1]);
    }
  }

  /** The risk fails exactly on a zero voter count or on an ill-formed
      option (H = 0, or a missing individual happiness that is needed). */
  predicate WellFormed(opt: TacticalOption)
  {
    opt.originalOverallHappiness != 0.0 && opt.originalVoterHappiness.Some? &&
    (opt.originalVoterHappiness.value != 0.0 ==> opt.modifiedVoterHappiness.Some?)
  }

  lemma {:induction false} RiskValuesOk(opts: seq<VoterOptions>)
    ensures RiskValues(opts).Ok? <==>
              forall i, k :: 0 <= i < |opts| && 0 <= k < |opts[i]| ==> WellFormed(opts[i][k].1)
    decreases |opts|
  {
    if opts != [] {
      var init := opts[..|opts| - 1];
      RiskValuesOk(init);
      RiskListOk(opts[|opts| - 1]);
      assert forall i :: 0 <= i < |init| ==> init[i] == opts[i];
    }
  }

  lemma {:induction false} RiskListOk(d: VoterOptions)
    ensures RiskList(d).Ok? <==> forall k :: 0 <= k < |d| ==> WellFormed(d[k].1)
    decreases |d|
  {
    if d != [] {
      RiskListOk(d[..|d| - 1]);
      assert forall k :: 0 <= k < |d| - 1 ==> d[..|d| - 1][k] == d[k];
    }
  }

  lemma StrategicRiskOk(opts: seq<VoterOptions>, numVoters: int)
    ensures StrategicRisk(opts, numVoters).Ok? <==>
              numVoters != 0 && forall i, k :: 0 <= i < |opts| && 0 <= k < |opts[i]| ==> WellFormed(opts[i][k].1)
  {
    RiskValuesOk(opts);
  }

  /** With non-negative happiness values, one option's risk is at most 0.6
      (both clamped ratios are at most 1). */
  lemma OptionRiskAtMost(opt: TacticalOption)
    requires WellFormed(opt) && opt.originalOverallHappiness > 0.0 && opt.modifiedOverallHappiness >= 0.0
    requires opt.originalVoterHappiness.value >= 0.0
    requires opt.modifiedVoterHappiness.Some? ==> opt.modifiedVoterHappiness.value >= 0.0
    ensures OptionRisk(opt).value <= 0.6
  {
    var h := opt.originalOverallHappiness;
    RatioAtMostOne(h, opt.modifiedOverallHappiness);
    var hi := opt.originalVoterHappiness.value;
    if hi != 0.0 {
      RatioAtMostOne(hi, opt.modifiedVoterHappiness.value);
    }
  }

  lemma RatioAtMostOne(h: real, m: real)
    requires h > 0.0 && m >= 0.0
    ensures (h - m) / h <= 1.0
  {
    var q := (h - m) / h;
    assert q * h == h - m;
  }

  // ---------------------------------------------------------------------
  // The Strategies object.

  /** tva/strategies.py Strategies: the voters (whose preference lists the
      moves rewrite in place) and the ids of the strategic voters. */
  class Strategies {
    var preferenceMatrix: seq<Voter>
    var strategicVoterIds: seq<VoterId>

    /** `Strategies(preference_matrix)`: the strategic ids are
        `sample(range(len(preference_matrix)), NUM_STRATEGIC_VOTERS)`, a
        random draw supplied as `sampled`. */
    constructor (matrix: seq<Voter>, sampled: seq<VoterId>)
      ensures preferenceMatrix == matrix && strategicVoterIds == sampled
    {
      preferenceMatrix := matrix;
      strategicVoterIds := sampled;
    }

    /** The voters' ids, by position. */
    function Ids(): (r: seq<VoterId>)
      reads this, preferenceMatrix
      ensures |r| == |preferenceMatrix| && forall i :: 0 <= i < |r| ==> r[i] == preferenceMatrix[i].id
    {
      seq(|preferenceMatrix|, i reads this, preferenceMatrix requires 0 <= i < |preferenceMatrix| => preferenceMatrix[i].id)
    }

    /** The voters' ballots, by position. */
    function Ballots(): (r: seq<Ballot>)
      reads this, preferenceMatrix
      ensures |r| == |preferenceMatrix| && forall i :: 0 <= i < |r| ==> r[i] == preferenceMatrix[i].preferences
    {
      seq(|preferenceMatrix|, i reads this, preferenceMatrix requires 0 <= i < |preferenceMatrix| => preferenceMatrix[i].preferences)
    }

    /** The loop shared by compromising and burying: every voter whose id is
        strategic has its ballot moved in place. A strategic ballot with
        fewer than two entries raises IndexError (`ok` is false) and leaves
        the voters before it already moved and the rest untouched. */
    method ApplyMove(m: Move) returns (ok: bool)
      requires Distinct(preferenceMatrix)
      modifies preferenceMatrix
      ensures ok <==> Halt(old(Ids()), strategicVoterIds, old(Ballots())) == |preferenceMatrix|
      ensures Ids() == old(Ids())
      ensures Ballots() == AfterMove(m, old(Ids()), strategicVoterIds, old(Ballots()))
    {
      ghost var ids0, ballots0 := Ids(), Ballots();
      ghost var after := AfterMove(m, ids0, strategicVoterIds, ballots0);
      ghost var halt := Halt(ids0, strategicVoterIds, ballots0);
      var i := 0;
      while i < |preferenceMatrix|
        invariant 0 <= i <= halt
        invariant forall k :: 0 <= k < |preferenceMatrix| ==> preferenceMatrix[k].id == ids0[k]
        invariant forall k :: 0 <= k < i ==> preferenceMatrix[k].preferences == after[k]
        invariant forall k :: i <= k < |preferenceMatrix| ==> preferenceMatrix[k].preferences == ballots0[k]
      {
        var voter := preferenceMatrix[i];
        if voter.id in strategicVoterIds {
          if |voter.preferences| < 2 {
            assert Ballots() == after;
            return false;
          }
          MoveVoter(voter, m);
        }
        i := i + 1;
      }
      assert Ballots() == after;
      return true;
    }

    /** One strategic voter's ballot rewritten in place by the move. */
    static method MoveVoter(voter: Voter, m: Move)
      requires |voter.preferences| >= 2
      modifies voter
      ensures voter.id == old(voter.id)
      ensures voter.preferences == MoveBallot(m, old(voter.preferences)).value
    {
      var p := voter.preferences;
      if m == Compromise {
        voter.preferences := p[0 := p[1]][1 := p[0]];
      } else {
        voter.preferences := p[|p| - 2 := p[|p| - 1]][|p| - 1 := p[|p| - 2]];
      }
    }

    /** compromising: swap the first two entries of every strategic ballot. */
    method Compromising() returns (ok: bool)
      requires Distinct(preferenceMatrix)
      modifies preferenceMatrix
      ensures ok <==> Halt(old(Ids()), strategicVoterIds, old(Ballots())) == |preferenceMatrix|
      ensures Ids() == old(Ids())
      ensures Ballots() == AfterMove(Compromise, old(Ids()), strategicVoterIds, old(Ballots()))
    {
      ok := ApplyMove(Compromise);
    }

    /** burying: swap the last two entries of every strategic ballot. */
    method Burying() returns (ok: bool)
      requires Distinct(preferenceMatrix)
      modifies preferenceMatrix
      ensures ok <==> Halt(old(Ids()), strategicVoterIds, old(Ballots())) == |preferenceMatrix|
      ensures Ids() == old(Ids())
      ensures Ballots() == AfterMove(Bury, old(Ids()), strategicVoterIds, old(Ballots()))
    {
      ok := ApplyMove(Bury);
    }

    /** get_strategic_options: the baseline of `schemes_instance` per scheme,
        then, for each strategic voter and scheme, the tactical swap written
        into a copy of the electorate and scored there. The voters
        themselves are not modified. */
    method GetStrategicOptions(o: SchemeOracle, inst: Electorate, schemes: seq<VotingScheme>)
      returns (r: Result<seq<VoterOptions>>)
      ensures r == AllOptions(o, inst, schemes, Ids(), strategicVoterIds, Ballots(), |preferenceMatrix|)
    {
      var original := OriginalResults(o, inst, schemes);
      var ids, ballots := Ids(), Ballots();
      var options: seq<VoterOptions> := [];
      for i := 0 to |ballots|
        invariant AllOptions(o, inst, schemes, ids, strategicVoterIds, ballots, i) == Ok(options)
      {
        var voterOptions: VoterOptions := [];
        if preferenceMatrix[i].id in strategicVoterIds {
          var vo := VoterOptionsFor(o, inst, original, schemes, ids, ballots, i);
          if vo.Err? {
            AllOptionsFailFrom(o, inst, schemes, ids, strategicVoterIds, ballots, i + 1, |ballots|);
            return Err(vo.raised);
          }
          voterOptions := vo.value;
        }
        options := options + [voterOptions];
      }
      return Ok(options);
    }

    /** compute_strategic_risk: the risk of every option, voter by voter,
        appended to `risk_values`; then the mean and the fraction of voters
        with an option. */
    method ComputeStrategicRisk(opts: seq<VoterOptions>, numVoters: int) returns (r: Result<real>)
      ensures r == StrategicRisk(opts, numVoters)
    {
      var riskValues: seq<real> := [];
      for i := 0 to |opts|
        invariant RiskValues(opts[..i]) == Ok(riskValues)
      {
        var next := AppendRisks(riskValues, opts[i]);
        assert opts[..i + 1][..i] == opts[..i];
        if next.Err? {
          RiskValuesFailFrom(opts, i + 1, |opts|);
          assert opts[..|opts|] == opts;
          return Err(next.raised);
        }
        riskValues := next.value;
      }
      assert opts[..|opts|] == opts;
      var averageRisk := if riskValues == [] then 0.0 else SumReal(riskValues) / |riskValues| as real;
      if numVoters == 0 {
        return Err(ZeroDivisionError);
      }
      var fraction := VotersWithOptions(opts) as real / numVoters as real;
      assert RiskValues(opts) == Ok(riskValues);
      var sr := StrategicRisk(opts, numVoters);
      assert sr.Ok?;
      assert sr.value == fraction * averageRisk;
      return Ok(fraction * averageRisk);
    }
  }

  /** The inner loop of compute_strategic_risk: the risk of each option of
      one voter's dict appended to `risk_values`, in order. */
  method AppendRisks(riskValues: seq<real>, d: VoterOptions) returns (r: Result<seq<real>>)
    ensures r == match RiskList(d) case Err(e) => Err(e) case Ok(l) => Ok(riskValues + l)
  {
    var values := riskValues;
    for j := 0 to |d|
      invariant RiskList(d[..j]).Ok? && values == riskValues + RiskList(d[..j]).value
    {
      var option := d[j].1;
      assert d[..j + 1][..j] == d[..j];
      var origH := option.originalOverallHappiness;
      var modH := option.modifiedOverallHappiness;
      if origH == 0.0 {
        RiskListFailsAt(d, j);
        return Err(ZeroDivisionError);
      }
      var riskOverall := if (origH - modH) / origH < 0.0 then 0.0 else (origH - modH) / origH;
      var riskIndiv: real;
      match option.originalVoterHappiness {
        case None =>
          RiskListFailsAt(d, j);
          return Err(TypeError);
        case Some(origHi) =>
          if origHi != 0.0 {
            match option.modifiedVoterHappiness {
              case None =>
                RiskListFailsAt(d, j);
                return Err(TypeError);
              case Some(modHi) =>
                riskIndiv := if (origHi - modHi) / origHi < 0.0 then 0.0 else (origHi - modHi) / origHi;
            }
          } else {
            riskIndiv := 0.0;
          }
      }
      values := values + [0.3 * riskOverall + 0.3 * riskIndiv];
    }
    assert d[..|d|] == d;
    return Ok(values);
  }

  /** The first loop of get_strategic_options: `original_results`, the
      baseline of every listed scheme. */
  method OriginalResults(o: SchemeOracle, inst: Electorate, schemes: seq<VotingScheme>)
    returns (original: map<VotingScheme, Baseline>)
    ensures forall s :: s in original <==> s in schemes
    ensures forall s :: s in original ==> original[s] == BaselineOf(o, inst, s)
  {
    original := map[];
    for k := 0 to |schemes|
      invariant forall s :: s in original <==> s in schemes[..k]
      invariant forall s :: s in original ==> original[s] == BaselineOf(o, inst, s)
    {
      original := original[schemes[k] := BaselineOf(o, inst, schemes[k])];
    }
    assert schemes[..|schemes|] == schemes;
  }

  /** The inner loop of get_strategic_options for voter position i: per
      scheme, the swap on a copy of the ballot, the copy of the electorate
      with that ballot, and the option built from its scores. */
  method VoterOptionsFor(o: SchemeOracle, inst: Electorate, original: map<VotingScheme, Baseline>,
                         schemes: seq<VotingScheme>, ids: seq<VoterId>, ballots: seq<Ballot>, i: nat)
    returns (r: Result<VoterOptions>)
    requires |ids| == |ballots| && i < |ballots|
    requires forall s :: s in schemes ==> s in original && original[s] == BaselineOf(o, inst, s)
    ensures r == OptionsOf(o, inst, schemes, ids, ballots, i)
  {
    var voterOptions: VoterOptions := [];
    for j := 0 to |schemes|
      invariant OptionsOf(o, inst, schemes[..j], ids, ballots, i) == Ok(voterOptions)
    {
      var s := schemes[j];
      var modified := ballots[i];
      if |modified| > 2 {
        modified := modified[0 := modified[2]][2 := modified[0]];
      } else {
        if |modified| == 0 {
          return Err(IndexError);
        }
        modified := modified[0 := modified[|modified| - 1]][|modified| - 1 := modified[0]];
      }
      var copy := ballots[i := modified];
      var w := o.vote(s, ids, copy);
      var h := o.happiness(s, ids, copy, w);
      var option := TacticalOption(modified, w, Lookup(h, ids[i]), Lookup(original[s].happiness, ids[i]),
                                   o.overall(h), original[s].overall);
      assert schemes[..j + 1][..j] == schemes[..j];
      voterOptions := Put(voterOptions, s, option);
    }
    assert schemes[..|schemes|] == schemes;
    return Ok(voterOptions);
  }

  /** Once the options of the first k voters fail, so do those of all n. */
  lemma {:induction false} AllOptionsFailFrom(o: SchemeOracle, inst: Electorate, schemes: seq<VotingScheme>,
                                              ids: seq<VoterId>, strategic: seq<VoterId>, ballots: seq<Ballot>, k: nat, n: nat)
    requires |ids| == |ballots| && k <= n <= |ballots|
    requires AllOptions(o, inst, schemes, ids, strategic, ballots, k).Err?
    ensures AllOptions(o, inst, schemes, ids, strategic, ballots, n) == AllOptions(o, inst, schemes, ids, strategic, ballots, k)
    decreases n - k
  {
    if k < n {
      AllOptionsFailFrom(o, inst, schemes, ids, strategic, ballots, k, n - 1);
      var prev := AllOptions(o, inst, schemes, ids, strategic, ballots, n - 1);
      assert prev.Err?;
    }
  }

  /** A voter position with an empty ballot makes its options fail as soon
      as one scheme is processed. */
  lemma OptionsPrefixFails(o: SchemeOracle, inst: Electorate, schemes: seq<VotingScheme>,
                           ids: seq<VoterId>, ballots: seq<Ballot>, i: nat)
    requires |ids| == |ballots| && i < |ballots| && ballots[i] == [] && schemes != []
    ensures OptionsOf(o, inst, schemes, ids, ballots, i).Err?
  {
  }

  lemma {:induction false} RiskValuesFailFrom(opts: seq<VoterOptions>, k: nat, n: nat)
    requires k <= n <= |opts| && RiskValues(opts[..k]).Err?
    ensures RiskValues(opts[..n]) == RiskValues(opts[..k])
    decreases n - k
  {
    if k < n {
      RiskValuesFailFrom(opts, k, n - 1);
      assert opts[..n][..n - 1] == opts[..n - 1];
    }
  }

  lemma {:induction false} RiskListFailsAt(d: VoterOptions, j: nat)
    requires j < |d| && RiskList(d[..j]).Ok? && OptionRisk(d[j].1).Err?
    ensures RiskList(d) == Err(OptionRisk(d[j].1).raised)
    decreases |d|
  {
    if j == |d| - 1 {
      assert d[..|d| - 1] == d[..j];
    } else {
      assert d[..|d| - 1][..j] == d[..j];
      RiskListFailsAt(d[..|d| - 1], j);
    }
  }
}
