/** ATVA2 (`tva/models/ATVA2.py`): the first voter's strategic ballots,
    each scored by how that voter fares, on average, once one other voter
    answers with its own best strategic ballot. */
module Atva2 {
  import opened Common
  import opened Dicts
  import opened Itertools
  import opened Collaborators

  // ---------------------------------------------------------------------
  // The strategic ballots of one voter.

  /** The ballot lists of a strategy dict, strategy by strategy in
      insertion order. */
  function Lists(d: Dict<StrategyType, seq<Ballot>>): (r: seq<seq<Ballot>>)
    ensures |r| == |d| && forall i :: 0 <= i < |d| ==> r[i] == d[i].1
  {
    seq(|d|, i requires 0 <= i < |d| => d[i].1)
  }

  /** The ballots `for _, lst in apply_all_strategies_to_voter(...).items():
      for p in lst` visits, in that order. */
  function Alternatives(c: Collaborators, ballots: seq<Ballot>, v: VoterId, s: VotingScheme, f: HappinessFunc)
    : seq<Ballot>
  {
    Flatten(Lists(c.allStrategies(ballots, v, s, f)))
  }

  // ---------------------------------------------------------------------
  // __find_situation_chosen_by_enemy

  /** The enemy's own happiness when it casts `p` (the rest unchanged). */
  function Score(c: Collaborators, ballots: seq<Ballot>, enemy: VoterId, s: VotingScheme, f: HappinessFunc,
                 p: Ballot): real
    requires enemy < |ballots|
  {
    c.individualHappiness(ballots[enemy := p], p, f, s)
  }

  /** `best_enemy_happiness` and `best_enemy_situation` after the enemy's
      ballots `opts`, from `acc`: a ballot replaces the best only when it
      scores strictly higher. */
  function ReplyFrom(c: Collaborators, ballots: seq<Ballot>, enemy: VoterId, s: VotingScheme, f: HappinessFunc,
                     acc: (real, seq<Ballot>), opts: seq<Ballot>): (real, seq<Ballot>)
    requires enemy < |ballots|
  {
    if opts == [] then acc
    else
      var (best, chosen) := ReplyFrom(c, ballots, enemy, s, f, acc, opts[..|opts| - 1]);
      var p := opts[|opts| - 1];
      if Score(c, ballots, enemy, s, f, p) > best then (Score(c, ballots, enemy, s, f, p), ballots[enemy := p])
      else (best, chosen)
  }

  /** The search from -1 and the input situation. */
  function Reply(c: Collaborators, ballots: seq<Ballot>, enemy: VoterId, s: VotingScheme, f: HappinessFunc,
                 opts: seq<Ballot>): (real, seq<Ballot>)
    requires enemy < |ballots|
  {
    ReplyFrom(c, ballots, enemy, s, f, (-1.0, ballots), opts)
  }

  /** The best happiness is at least -1 and at least every ballot's, and
      the chosen situation differs from the input in the enemy's ballot
      at most. */
  lemma {:induction false} ReplyBound(c: Collaborators, ballots: seq<Ballot>, enemy: VoterId, s: VotingScheme,
                                      f: HappinessFunc, opts: seq<Ballot>)
    requires enemy < |ballots|
    ensures var (best, chosen) := Reply(c, ballots, enemy, s, f, opts);
            -1.0 <= best && (forall j :: 0 <= j < |opts| ==> Score(c, ballots, enemy, s, f, opts[j]) <= best) &&
            |chosen| == |ballots| && forall j :: 0 <= j < |ballots| && j != enemy ==> chosen[j] == ballots[j]
    decreases |opts|
  {
    if opts != [] {
      var n := |opts| - 1;
      ReplyBound(c, ballots, enemy, s, f, opts[..n]);
      assert forall j :: 0 <= j < n ==> opts[..n][j] == opts[j];
    }
  }

  /** When no ballot beats -1, the enemy keeps the input situation. */
  lemma {:induction false} ReplyNone(c: Collaborators, ballots: seq<Ballot>, enemy: VoterId, s: VotingScheme,
                                     f: HappinessFunc, opts: seq<Ballot>)
    requires enemy < |ballots|
    requires forall j :: 0 <= j < |opts| ==> Score(c, ballots, enemy, s, f, opts[j]) <= -1.0
    ensures Reply(c, ballots, enemy, s, f, opts) == (-1.0, ballots)
    decreases |opts|
  {
    if opts != [] {
      var n := |opts| - 1;
      assert forall j :: 0 <= j < n ==> opts[..n][j] == opts[j];
      ReplyNone(c, ballots, enemy, s, f, opts[..n]);
    }
  }

  /** When some ballot beats -1, the enemy replies with its first ballot
      of highest happiness. */
  lemma {:induction false} ReplyFirst(c: Collaborators, ballots: seq<Ballot>, enemy: VoterId, s: VotingScheme,
                                      f: HappinessFunc, opts: seq<Ballot>)
    requires enemy < |ballots|
    requires exists j :: 0 <= j < |opts| && Score(c, ballots, enemy, s, f, opts[j]) > -1.0
    ensures var (best, chosen) := Reply(c, ballots, enemy, s, f, opts);
            exists i :: 0 <= i < |opts| && best == Score(c, ballots, enemy, s, f, opts[i]) &&
                        chosen == ballots[enemy := opts[i]] &&
                        forall j :: 0 <= j < i ==> Score(c, ballots, enemy, s, f, opts[j]) < best
    decreases |opts|
  {
    var n := |opts| - 1;
    var front := opts[..n];
    assert forall j :: 0 <= j < n ==> front[j] == opts[j];
    ReplyBound(c, ballots, enemy, s, f, front);
    var (best, chosen) := Reply(c, ballots, enemy, s, f, front);
    var score := Score(c, ballots, enemy, s, f, opts[n]);
    if score > best {
      assert Reply(c, ballots, enemy, s, f, opts) == (score, ballots[enemy := opts[n]]);
      assert forall j :: 0 <= j < n ==> Score(c, ballots, enemy, s, f, opts[j]) < score;
    } else {
      if forall j :: 0 <= j < n ==> Score(c, ballots, enemy, s, f, front[j]) <= -1.0 {
        ReplyNone(c, ballots, enemy, s, f, front);
        assert false;
      }
      ReplyFirst(c, ballots, enemy, s, f, front);
      var i :| 0 <= i < n && best == Score(c, ballots, enemy, s, f, front[i]) &&
               chosen == ballots[enemy := front[i]] &&
               forall j :: 0 <= j < i ==> Score(c, ballots, enemy, s, f, front[j]) < best;
      assert front[i] == opts[i];
      assert Reply(c, ballots, enemy, s, f, opts) == (best, chosen);
    }
  }

  /** Searching two runs of ballots is searching the second from where
      the first left off. */
  lemma {:induction false} ReplyAppend(c: Collaborators, ballots: seq<Ballot>, enemy: VoterId, s: VotingScheme,
                                       f: HappinessFunc, acc: (real, seq<Ballot>), a: seq<Ballot>, b: seq<Ballot>)
    requires enemy < |ballots|
    ensures ReplyFrom(c, ballots, enemy, s, f, acc, a + b) ==
            ReplyFrom(c, ballots, enemy, s, f, ReplyFrom(c, ballots, enemy, s, f, acc, a), b)
    decreases |b|
  {
    if b == [] {
      assert a + b == a;
    } else {
      var n := |b| - 1;
      ReplyAppend(c, ballots, enemy, s, f, acc, a, b[..n]);
      assert (a + b)[..|a + b| - 1] == a + b[..n];
    }
  }

  /** The inner loop of `__find_situation_chosen_by_enemy`, over one
      strategy's ballots. */
  method ReplyIn(c: Collaborators, ballots: seq<Ballot>, enemy: VoterId, s: VotingScheme, f: HappinessFunc,
                 acc: (real, seq<Ballot>), prefs: seq<Ballot>) returns (best: real, chosen: seq<Ballot>)
    requires enemy < |ballots|
    ensures (best, chosen) == ReplyFrom(c, ballots, enemy, s, f, acc, prefs)
  {
    best, chosen := acc.0, acc.1;
    for j := 0 to |prefs|
      invariant (best, chosen) == ReplyFrom(c, ballots, enemy, s, f, acc, prefs[..j])
    {
      var candidate := ballots[enemy := prefs[j]];
      var happiness := c.individualHappiness(candidate, prefs[j], f, s);
      assert prefs[..j + 1][..j] == prefs[..j];
      if happiness > best {
        best := happiness;
        chosen := candidate;
      }
    }
    assert prefs[..|prefs|] == prefs;
  }

  /** `__find_situation_chosen_by_enemy`: the situation after the enemy's
      best reply. */
  method ChooseByEnemy(c: Collaborators, ballots: seq<Ballot>, enemy: VoterId, s: VotingScheme, f: HappinessFunc)
    returns (chosen: seq<Ballot>)
    requires enemy < |ballots|
    ensures chosen == Reply(c, ballots, enemy, s, f, Alternatives(c, ballots, enemy, s, f)).1
  {
    var strategies := c.allStrategies(ballots, enemy, s, f);
    ghost var lists := Lists(strategies);
    chosen := ballots;
    var best: real := -1.0;
    for k := 0 to |strategies|
      invariant (best, chosen) == Reply(c, ballots, enemy, s, f, Flatten(lists[..k]))
    {
      FlattenNext(lists, k);
      ReplyAppend(c, ballots, enemy, s, f, (-1.0, ballots), Flatten(lists[..k]), lists[k]);
      best, chosen := ReplyIn(c, ballots, enemy, s, f, (best, chosen), strategies[k].1);
    }
    assert lists[..|strategies|] == lists;
  }

  // ---------------------------------------------------------------------
  // The opponents' replies to one strategic ballot.

  /** `[voter.voter_id for voter in voters if voter.voter_id != v]` for
      the `n` voters of a situation. */
  function Others(n: nat, v: VoterId): (r: seq<VoterId>)
    ensures forall i :: 0 <= i < |r| ==> r[i] < n && r[i] != v
  {
    if n == 0 then [] else Others(n - 1, v) + (if n - 1 != v then [n - 1] else [])
  }

  /** The opponents are every voter but `v`. */
  lemma {:induction false} OthersMeaning(n: nat, v: VoterId)
    ensures forall x: VoterId :: x in Others(n, v) <==> x < n && x != v
    ensures |Others(n, v)| == if v < n then n - 1 else n
  {
    if n > 0 {
      OthersMeaning(n - 1, v);
      var before := Others(n - 1, v);
      var r := Others(n, v);
      forall x: VoterId | x < n - 1 && x != v
        ensures x in r
      {
        assert x in before;
        var k :| 0 <= k < |before| && before[k] == x;
        assert r[k] == x;
      }
      if n - 1 != v {
        assert r[|r| - 1] == n - 1;
      }
    }
  }

  /** The opponents come in increasing order, each once. */
  lemma {:induction false} OthersSorted(n: nat, v: VoterId)
    ensures forall i, j :: 0 <= i < j < |Others(n, v)| ==> Others(n, v)[i] < Others(n, v)[j]
  {
    if n > 0 {
      OthersSorted(n - 1, v);
      var before := Others(n - 1, v);
      assert forall i :: 0 <= i < |before| ==> Others(n, v)[i] == before[i] < n - 1;
    }
  }

  /** What the analysing voter `v` and the whole electorate get once
      `enemy` has replied: `v`'s entry of the individual happiness
      (KeyError when it is missing) and the total. */
  function Answer(c: Collaborators, copy: seq<Ballot>, sincere: seq<Ballot>, v: VoterId, s: VotingScheme,
                  f: HappinessFunc, enemy: VoterId): Result<(real, real)>
    requires enemy < |copy|
  {
    var chosen := Reply(c, copy, enemy, s, f, Alternatives(c, copy, enemy, s, f)).1;
    var h := c.situationHappiness(chosen, sincere, f, s).0;
    match Index(h.individual, v)
    case Err(e) => Err(e)
    case Ok(mine) => Ok((mine, h.total))
  }

  /** The reply to each opponent in `enemies`, in order. */
  function Replies(c: Collaborators, copy: seq<Ballot>, sincere: seq<Ballot>, v: VoterId, s: VotingScheme,
                   f: HappinessFunc, enemies: seq<VoterId>): (r: seq<Result<(real, real)>>)
    requires forall i :: 0 <= i < |enemies| ==> enemies[i] < |copy|
    ensures |r| == |enemies| && forall i :: 0 <= i < |enemies| ==> r[i] == Answer(c, copy, sincere, v, s, f, enemies[i])
  {
    seq(|enemies|, i requires 0 <= i < |enemies| => Answer(c, copy, sincere, v, s, f, enemies[i]))
  }

  /** `my_happiness_list` and `total_happiness_list` after the replies
      `outs`; the first KeyError stops the analysis. */
  function Answers(outs: seq<Result<(real, real)>>): Result<(seq<real>, seq<real>)>
  {
    if outs == [] then Ok(([], []))
    else
      match Answers(outs[..|outs| - 1])
      case Err(e) => Err(e)
      case Ok((mine, totals)) =>
        match outs[|outs| - 1]
        case Err(e) => Err(e)
        case Ok((m, t)) => Ok((mine + [m], totals + [t]))
  }

  /** The lists hold one entry per reply, in order; they are filled
      exactly when no reply raises. */
  lemma {:induction false} AnswersMeaning(outs: seq<Result<(real, real)>>)
    ensures var r := Answers(outs);
            (r.Ok? <==> forall i :: 0 <= i < |outs| ==> outs[i].Ok?) &&
            (r.Ok? ==> |r.value.0| == |outs| && |r.value.1| == |outs| &&
                       forall i :: 0 <= i < |outs| ==> (r.value.0[i], r.value.1[i]) == outs[i].value)
  {
    if outs != [] {
      var n := |outs| - 1;
      AnswersMeaning(outs[..n]);
      assert forall i :: 0 <= i < n ==> outs[..n][i] == outs[i];
    }
  }

  /** One opponent's reply, as the loop body computes it. */
  method AnswerOf(c: Collaborators, copy: seq<Ballot>, sincere: seq<Ballot>, v: VoterId, s: VotingScheme,
                  f: HappinessFunc, enemy: VoterId) returns (r: Result<(real, real)>)
    requires enemy < |copy|
    ensures r == Answer(c, copy, sincere, v, s, f, enemy)
  {
    var chosen := ChooseByEnemy(c, copy, enemy, s, f);
    var h := c.situationHappiness(chosen, sincere, f, s).0;
    if v !in h.individual {
      return Err(KeyError);
    }
    return Ok((h.individual[v], h.total));
  }

  /** The loop over the opponents. */
  method AnswersOf(c: Collaborators, copy: seq<Ballot>, sincere: seq<Ballot>, v: VoterId, s: VotingScheme,
                   f: HappinessFunc) returns (r: Result<(seq<real>, seq<real>)>)
    ensures r == Answers(Replies(c, copy, sincere, v, s, f, Others(|copy|, v)))
  {
    var others := Others(|copy|, v);
    ghost var outs := Replies(c, copy, sincere, v, s, f, others);
    var mine: seq<real> := [];
    var totals: seq<real> := [];
    for i := 0 to |others|
      invariant Answers(outs[..i]) == Ok((mine, totals))
    {
      var answer := AnswerOf(c, copy, sincere, v, s, f, others[i]);
      assert answer == outs[i];
      assert outs[..i + 1][..i] == outs[..i];
      if answer.Err? {
        AnswersRaise(outs, i + 1);
        return Err(answer.raised);
      }
      mine := mine + [answer.value.0];
      totals := totals + [answer.value.1];
    }
    assert outs[..|others|] == outs;
    return Ok((mine, totals));
  }

  /** Once a prefix of the replies raises, all of them raise the same
      error. */
  lemma {:induction false} AnswersRaise(outs: seq<Result<(real, real)>>, i: nat)
    requires i <= |outs| && Answers(outs[..i]).Err?
    ensures Answers(outs) == Answers(outs[..i])
    decreases |outs| - i
  {
    if i < |outs| {
      var n := |outs| - 1;
      assert outs[..n][..i] == outs[..i];
      AnswersRaise(outs[..n], i);
    } else {
      assert outs[..i] == outs;
    }
  }

  // ---------------------------------------------------------------------
  // Averages.

  function Sum(xs: seq<real>): real
  {
    if xs == [] then 0.0 else Sum(xs[..|xs| - 1]) + xs[|xs| - 1]
  }

  /** `np.mean(xs)`; the mean of no values (NaN) is None. */
  function Mean(xs: seq<real>): Option<real>
  {
    if xs == [] then None else Some(Sum(xs) / |xs| as real)
  }

  lemma {:induction false} SumBounds(xs: seq<real>, lo: real, hi: real)
    requires forall i :: 0 <= i < |xs| ==> lo <= xs[i] <= hi
    ensures |xs| as real * lo <= Sum(xs) <= |xs| as real * hi
  {
    if xs != [] {
      var n := |xs| - 1;
      SumBounds(xs[..n], lo, hi);
      assert xs[..n][..] == xs[..n];
      assert forall i :: 0 <= i < n ==> xs[..n][i] == xs[i];
      assert |xs| as real * lo == n as real * lo + lo;
      assert |xs| as real * hi == n as real * hi + hi;
    }
  }

  /** The mean of values between `lo` and `hi` lies between them. */
  lemma MeanBounds(xs: seq<real>, lo: real, hi: real)
    requires xs != [] && forall i :: 0 <= i < |xs| ==> lo <= xs[i] <= hi
    ensures Mean(xs).Some? && lo <= Mean(xs).value <= hi
  {
    SumBounds(xs, lo, hi);
    var n := |xs| as real;
    assert Sum(xs) / n * n == Sum(xs);
    assert n * lo / n == lo && n * hi / n == hi;
  }

  // ---------------------------------------------------------------------
  // analyse_single

  /** One entry of `preferences_happiness`; a mean of no values (one
      voter only) is None. */
  datatype Atva2Record = Atva2Record(
    strategy: Ballot,
    strategicWinner: Candidate,
    strategicIndividual: Option<real>,
    originalIndividual: real,
    strategicTotal: Option<real>,
    originalTotal: real)

  /** What the records of one analysing voter hold fixed: the
      collaborators, the situation, the voter and its original happiness. */
  datatype Focus = Focus(c: Collaborators, sincere: seq<Ballot>, v: VoterId, s: VotingScheme, f: HappinessFunc,
                         original: Happy)

  /** The record for `a.v` casting `p`: the new winner, the means over
      the opponents' replies, and `a.v`'s original happiness (KeyError
      when it is missing). */
  function RecordFor(a: Focus, p: Ballot): Result<Atva2Record>
    requires a.v < |a.sincere|
  {
    var copy := a.sincere[a.v := p];
    match Answers(Replies(a.c, copy, a.sincere, a.v, a.s, a.f, Others(|copy|, a.v)))
    case Err(e) => Err(e)
    case Ok((mine, totals)) =>
      match Index(a.original.individual, a.v)
      case Err(e) => Err(e)
      case Ok(o) => Ok(Atva2Record(p, a.c.winner(a.s, copy), Mean(mine), o, Mean(totals), a.original.total))
  }

  /** The replies of the opponents of `a.v` once it casts `p`, in order. */
  function RepliesTo(a: Focus, p: Ballot): seq<Result<(real, real)>>
    requires a.v < |a.sincere|
  {
    var copy := a.sincere[a.v := p];
    Replies(a.c, copy, a.sincere, a.v, a.s, a.f, Others(|copy|, a.v))
  }

  /** The happiness of `a.v` after each reply (0.0 for one that raises). */
  function MineAfter(outs: seq<Result<(real, real)>>): seq<real>
  {
    seq(|outs|, i requires 0 <= i < |outs| => if outs[i].Ok? then outs[i].value.0 else 0.0)
  }

  /** The total happiness after each reply (0.0 for one that raises). */
  function TotalAfter(outs: seq<Result<(real, real)>>): seq<real>
  {
    seq(|outs|, i requires 0 <= i < |outs| => if outs[i].Ok? then outs[i].value.1 else 0.0)
  }

  /** The record of each ballot, in order. */
  function Outcomes(a: Focus, opts: seq<Ballot>): (r: seq<Result<Atva2Record>>)
    requires a.v < |a.sincere|
    ensures |r| == |opts| && forall i :: 0 <= i < |opts| ==> r[i] == RecordFor(a, opts[i])
  {
    seq(|opts|, i requires 0 <= i < |opts| => RecordFor(a, opts[i]))
  }

  /** `preferences_happiness` after the records `outs`, from `acc`; the
      first record that raises stops the analysis. */
  function Collect(acc: Result<seq<Atva2Record>>, outs: seq<Result<Atva2Record>>): Result<seq<Atva2Record>>
  {
    if outs == [] then acc
    else Add(Collect(acc, outs[..|outs| - 1]), outs[|outs| - 1])
  }

  function Add(acc: Result<seq<Atva2Record>>, out: Result<Atva2Record>): Result<seq<Atva2Record>>
  {
    if acc.Err? then acc
    else match out
      case Err(e) => Err(e)
      case Ok(rec) => Ok(acc.value + [rec])
  }

  /** `preferences_happiness` for the ballots `opts`. */
  function Records(a: Focus, opts: seq<Ballot>): Result<seq<Atva2Record>>
    requires a.v < |a.sincere|
  {
    Collect(Ok([]), Outcomes(a, opts))
  }

  /** The record of one ballot names it and the winner it brings, keeps
      the original happiness of the voter and the original total, and
      averages over every opponent's reply (no average when the voter is
      alone). */
  lemma RecordMeaning(a: Focus, p: Ballot)
    requires a.v < |a.sincere| && RecordFor(a, p).Ok?
    ensures var r := RecordFor(a, p).value;
            r.strategy == p && r.strategicWinner == a.c.winner(a.s, a.sincere[a.v := p]) &&
            a.v in a.original.individual && r.originalIndividual == a.original.individual[a.v] &&
            r.originalTotal == a.original.total &&
            (r.strategicIndividual.Some? <==> |a.sincere| > 1) && (r.strategicTotal.Some? <==> |a.sincere| > 1)
  ensures var r := RecordFor(a, p).value;
          var outs := RepliesTo(a, p);
          (forall i :: 0 <= i < |outs| ==> outs[i].Ok?) &&
          r.strategicIndividual == Mean(MineAfter(outs)) && r.strategicTotal == Mean(TotalAfter(outs))
  {
    var copy := a.sincere[a.v := p];
    OthersMeaning(|copy|, a.v);
    AnswersMeaning(RepliesTo(a, p));
    AnswersLists(RepliesTo(a, p));
  }

  /** The lists Answers fills are the voter's and the total happiness
      after each reply. */
  lemma {:induction false} AnswersLists(outs: seq<Result<(real, real)>>)
    ensures Answers(outs).Ok? ==> Answers(outs).value == (MineAfter(outs), TotalAfter(outs))
  {
    if outs != [] {
      var n := |outs| - 1;
      AnswersLists(outs[..n]);
      if Answers(outs).Ok? {
        assert MineAfter(outs) == MineAfter(outs[..n]) + [outs[n].value.0];
        assert TotalAfter(outs) == TotalAfter(outs[..n]) + [outs[n].value.1];
      }
    } else {
      assert MineAfter(outs) == [] && TotalAfter(outs) == [];
    }
  }

  /** When every reply leaves `a.v` between `lo` and `hi`, so does its
      average in the record; likewise for the total. */
  lemma RecordBounds(a: Focus, p: Ballot, lo: real, hi: real, lo': real, hi': real)
    requires a.v < |a.sincere| && RecordFor(a, p).Ok? && |a.sincere| > 1
    requires forall i :: 0 <= i < |RepliesTo(a, p)| ==> lo <= MineAfter(RepliesTo(a, p))[i] <= hi
    requires forall i :: 0 <= i < |RepliesTo(a, p)| ==> lo' <= TotalAfter(RepliesTo(a, p))[i] <= hi'
    ensures var r := RecordFor(a, p).value;
            r.strategicIndividual.Some? && lo <= r.strategicIndividual.value <= hi &&
            r.strategicTotal.Some? && lo' <= r.strategicTotal.value <= hi'
  {
    RecordMeaning(a, p);
    MeanBounds(MineAfter(RepliesTo(a, p)), lo, hi);
    MeanBounds(TotalAfter(RepliesTo(a, p)), lo', hi');
  }

  lemma OutcomesAppend(a: Focus, x: seq<Ballot>, y: seq<Ballot>)
    requires a.v < |a.sincere|
    ensures Outcomes(a, x + y) == Outcomes(a, x) + Outcomes(a, y)
  {
    var l, r := Outcomes(a, x + y), Outcomes(a, x) + Outcomes(a, y);
    forall i | 0 <= i < |l|
      ensures l[i] == r[i]
    {
      if i < |x| {
        assert (x + y)[i] == x[i];
      } else {
        assert (x + y)[i] == y[i - |x|];
      }
    }
  }

  /** Collecting two runs of records is collecting the second after the
      first. */
  lemma {:induction false} CollectAppend(acc: Result<seq<Atva2Record>>, x: seq<Result<Atva2Record>>,
                                         y: seq<Result<Atva2Record>>)
    ensures Collect(acc, x + y) == Collect(Collect(acc, x), y)
    decreases |y|
  {
    if y == [] {
      assert x + y == x;
    } else {
      var n := |y| - 1;
      CollectAppend(acc, x, y[..n]);
      assert (x + y)[..|x + y| - 1] == x + y[..n];
    }
  }

  lemma {:induction false} CollectErr(err: Raised, outs: seq<Result<Atva2Record>>)
    ensures Collect(Err(err), outs) == Err(err)
    decreases |outs|
  {
    if outs != [] {
      CollectErr(err, outs[..|outs| - 1]);
    }
  }

  /** A run that raises makes any longer run raise the same error. */
  lemma CollectErrAppend(acc: Result<seq<Atva2Record>>, x: seq<Result<Atva2Record>>, y: seq<Result<Atva2Record>>)
    requires Collect(acc, x).Err?
    ensures Collect(acc, x + y) == Collect(acc, x)
  {
    CollectAppend(acc, x, y);
    CollectErr(Collect(acc, x).raised, y);
  }

  /** From an empty list, the records are produced exactly when none
      raises, one per ballot in order. */
  lemma {:induction false} CollectMeaning(outs: seq<Result<Atva2Record>>)
    ensures var r := Collect(Ok([]), outs);
            (r.Ok? <==> forall i :: 0 <= i < |outs| ==> outs[i].Ok?) &&
            (r.Ok? ==> |r.value| == |outs| && forall i :: 0 <= i < |outs| ==> r.value[i] == outs[i].value)
    decreases |outs|
  {
    if outs != [] {
      var n := |outs| - 1;
      CollectMeaning(outs[..n]);
      assert forall i :: 0 <= i < n ==> outs[..n][i] == outs[i];
    }
  }

  /** The inner loop of `analyse_single`, over one strategy's ballots. */
  method RecordsIn(a: Focus, prefs: seq<Ballot>, acc: seq<Atva2Record>) returns (r: Result<seq<Atva2Record>>)
    requires a.v < |a.sincere|
    ensures r == Collect(Ok(acc), Outcomes(a, prefs))
  {
    ghost var outs := Outcomes(a, prefs);
    var records := acc;
    for j := 0 to |prefs|
      invariant Collect(Ok(acc), outs[..j]) == Ok(records)
    {
      var rec := RecordOf(a, prefs[j]);
      CollectNext(Ok(acc), outs, j);
      if rec.Err? {
        CollectErrAppend(Ok(acc), outs[..j + 1], outs[j + 1..]);
        assert outs[..j + 1] + outs[j + 1..] == outs;
        return Err(rec.raised);
      }
      records := records + [rec.value];
    }
    assert outs[..|prefs|] == outs;
    return Ok(records);
  }

  /** One record more. */
  lemma CollectNext(acc: Result<seq<Atva2Record>>, outs: seq<Result<Atva2Record>>, j: nat)
    requires j < |outs|
    ensures Collect(acc, outs[..j + 1]) == Add(Collect(acc, outs[..j]), outs[j])
  {
    assert outs[..j + 1][..j] == outs[..j];
  }

  /** The record of one strategic ballot, as the loop body builds it. */
  method RecordOf(a: Focus, p: Ballot) returns (r: Result<Atva2Record>)
    requires a.v < |a.sincere|
    ensures r == RecordFor(a, p)
  {
    var copy := a.sincere[a.v := p];
    var winner := a.c.winner(a.s, copy);
    var answers := AnswersOf(a.c, copy, a.sincere, a.v, a.s, a.f);
    if answers.Err? {
      return Err(answers.raised);
    }
    var (mine, totals) := answers.value;
    if a.v !in a.original.individual {
      return Err(KeyError);
    }
    return Ok(Atva2Record(p, winner, Mean(mine), a.original.individual[a.v], Mean(totals), a.original.total));
  }

  /** Once the strategies visited so far raise, all of them raise the same
      error. */
  lemma RecordsErr(a: Focus, lists: seq<seq<Ballot>>, j: nat)
    requires a.v < |a.sincere| && j <= |lists| && Records(a, Flatten(lists[..j])).Err?
    ensures Records(a, Flatten(lists)) == Records(a, Flatten(lists[..j]))
  {
    var done, all := Flatten(lists[..j]), Flatten(lists);
    FlattenPrefix(lists, j);
    OutcomesAppend(a, done, all[|done|..]);
    CollectErrAppend(Ok([]), Outcomes(a, done), Outcomes(a, all[|done|..]));
  }

  /** The loops over the strategy dict of the analysing voter. */
  method RecordsOf(a: Focus) returns (r: Result<seq<Atva2Record>>)
    requires a.v < |a.sincere|
    ensures r == Records(a, Alternatives(a.c, a.sincere, a.v, a.s, a.f))
  {
    var strategies := a.c.allStrategies(a.sincere, a.v, a.s, a.f);
    ghost var lists := Lists(strategies);
    var records: seq<Atva2Record> := [];
    for k := 0 to |strategies|
      invariant Records(a, Flatten(lists[..k])) == Ok(records)
    {
      FlattenNext(lists, k);
      OutcomesAppend(a, Flatten(lists[..k]), lists[k]);
      CollectAppend(Ok([]), Outcomes(a, Flatten(lists[..k])), Outcomes(a, lists[k]));
      var next := RecordsIn(a, strategies[k].1, records);
      if next.Err? {
        RecordsErr(a, lists, k + 1);
        return next;
      }
      records := next.value;
    }
    assert lists[..|strategies|] == lists;
    return Ok(records);
  }

  /** `analyse_single`: only the first voter (when there is one) is
      analysed, against its original happiness. */
  function AnalysedSingle(c: Collaborators, sincere: seq<Ballot>, s: VotingScheme, f: HappinessFunc)
    : Result<Dict<VoterId, seq<Atva2Record>>>
  {
    if sincere == [] then Ok([])
    else
      var a := Focus(c, sincere, 0, s, f, c.situationHappiness(sincere, sincere, f, s).0);
      match Records(a, Alternatives(c, sincere, 0, s, f))
      case Err(e) => Err(e)
      case Ok(recs) => Ok([(0, recs)])
  }

  /** The loop over `voters[:1]` runs at most once. */
  method AnalyseSingle(c: Collaborators, sincere: seq<Ballot>, s: VotingScheme, f: HappinessFunc)
    returns (r: Result<Dict<VoterId, seq<Atva2Record>>>)
    ensures r == AnalysedSingle(c, sincere, s, f)
  {
    var analysis: Dict<VoterId, seq<Atva2Record>> := [];
    if |sincere| > 0 {
      var original := c.situationHappiness(sincere, sincere, f, s).0;
      var recs := RecordsOf(Focus(c, sincere, 0, s, f, original));
      if recs.Err? {
        return Err(recs.raised);
      }
      analysis := Put(analysis, 0, recs.value);
    }
    return Ok(analysis);
  }

  /** Only the first voter is analysed, with one record per strategic
      ballot in the order the strategy dict lists them, each keeping the
      original happiness; no voter gives an empty analysis. */
  lemma AnalysedSingleMeaning(c: Collaborators, sincere: seq<Ballot>, s: VotingScheme, f: HappinessFunc)
    requires AnalysedSingle(c, sincere, s, f).Ok?
    ensures var d := AnalysedSingle(c, sincere, s, f).value;
            (sincere == [] ==> d == []) &&
            (sincere != [] ==>
               var original := c.situationHappiness(sincere, sincere, f, s).0;
               var opts := Alternatives(c, sincere, 0, s, f);
               Keys(d) == {0} && |d[0].1| == |opts| &&
               forall i :: 0 <= i < |opts| ==>
                 d[0].1[i].strategy == opts[i] && d[0].1[i].originalTotal == original.total &&
                 0 in original.individual && d[0].1[i].originalIndividual == original.individual[0] &&
                 var outs := RepliesTo(Focus(c, sincere, 0, s, f, original), opts[i]);
                 d[0].1[i].strategicIndividual == Mean(MineAfter(outs)) && d[0].1[i].strategicTotal == Mean(TotalAfter(outs)))
  {
    if sincere != [] {
      var a := Focus(c, sincere, 0, s, f, c.situationHappiness(sincere, sincere, f, s).0);
      var opts := Alternatives(c, sincere, 0, s, f);
      CollectMeaning(Outcomes(a, opts));
      var d := AnalysedSingle(c, sincere, s, f).value;
      forall i | 0 <= i < |opts|
        ensures d[0].1[i].strategy == opts[i] && d[0].1[i].originalTotal == a.original.total &&
                0 in a.original.individual && d[0].1[i].originalIndividual == a.original.individual[0] &&
                d[0].1[i].strategicIndividual == Mean(MineAfter(RepliesTo(a, opts[i]))) &&
                d[0].1[i].strategicTotal == Mean(TotalAfter(RepliesTo(a, opts[i])))
      {
        RecordMeaning(a, opts[i]);
      }
    }
  }
}
