/** The coalition analyser of tva/models/ATVA1.py. The voters unhappy
    with the honest winner are grouped by the candidates they would rather
    see win. Each group yields its coalitions of two or more members. The
    largest coalition whose coordinated strategies leave every member at
    least as happy and one member happier is reported. Over many
    situations, the share of situations with such a coalition is the risk. */
module Atva1 {
  import opened Common
  import opened Dicts
  import opened Collaborators
  import opened Coalitions
  import Btva
  import opened Itertools

  // ---------------------------------------------------------------------
  // group_voters_by_preferences: the voters taking part.

  /** A voter takes part when its sincere first choice is not the winner
      and the single-voter analysis found strategies for it. */
  predicate IsDissatisfied(ballots: seq<Ballot>, strategies: StrategyLists, winner: Candidate, v: VoterId)
  {
    v < |ballots| && ballots[v] != [] && ballots[v][0] != winner && v in Keys(strategies)
  }

  /** The dict comprehension of dissatisfied voters, from voter `i` on,
      added to `acc`. Reading the first choice of an empty ballot raises
      IndexError. */
  function DissatisfiedFrom(ballots: seq<Ballot>, strategies: StrategyLists, winner: Candidate,
                            i: nat, acc: Dict<VoterId, Ballot>): Result<Dict<VoterId, Ballot>>
    decreases |ballots| - i
  {
    if i >= |ballots| then Ok(acc)
    else if ballots[i] == [] then Err(IndexError)
    else
      var acc' := if ballots[i][0] != winner && i in Keys(strategies) then acc + [(i, ballots[i])] else acc;
      DissatisfiedFrom(ballots, strategies, winner, i + 1, acc')
  }

  /** The dissatisfied voters with their sincere ballots. */
  function Dissatisfied(ballots: seq<Ballot>, strategies: StrategyLists, winner: Candidate): Result<Dict<VoterId, Ballot>>
  {
    DissatisfiedFrom(ballots, strategies, winner, 0, [])
  }

  /** The comprehension as a loop over the voters. */
  method DissatisfiedVoters(ballots: seq<Ballot>, strategies: StrategyLists, winner: Candidate)
    returns (r: Result<Dict<VoterId, Ballot>>)
    ensures r == Dissatisfied(ballots, strategies, winner)
  {
    var d: Dict<VoterId, Ballot> := [];
    for i := 0 to |ballots|
      invariant Dissatisfied(ballots, strategies, winner) == DissatisfiedFrom(ballots, strategies, winner, i, d)
    {
      if ballots[i] == [] {
        return Err(IndexError);
      }
      if ballots[i][0] != winner && i in Keys(strategies) {
        d := d + [(i, ballots[i])];
      }
    }
    return Ok(d);
  }

  /** The comprehension raises exactly when some ballot from `i` on is
      empty. */
  lemma {:induction false} DissatisfiedFails(ballots: seq<Ballot>, strategies: StrategyLists, winner: Candidate,
                                             i: nat, acc: Dict<VoterId, Ballot>)
    ensures DissatisfiedFrom(ballots, strategies, winner, i, acc).Err? <==>
            exists j :: i <= j < |ballots| && ballots[j] == []
    decreases |ballots| - i
  {
    if i < |ballots| && ballots[i] != [] {
      var acc' := if ballots[i][0] != winner && i in Keys(strategies) then acc + [(i, ballots[i])] else acc;
      DissatisfiedFails(ballots, strategies, winner, i + 1, acc');
      if exists j :: i <= j < |ballots| && ballots[j] == [] {
        var j :| i <= j < |ballots| && ballots[j] == [];
        assert j != i;
      }
    }
  }

  /** Otherwise it holds each dissatisfied voter once, with its ballot. */
  lemma {:induction false} DissatisfiedEntries(ballots: seq<Ballot>, strategies: StrategyLists, winner: Candidate,
                                               i: nat, acc: Dict<VoterId, Ballot>)
    requires KeysDistinct(acc) && forall p :: p in acc ==> p.0 < i
    ensures DissatisfiedFrom(ballots, strategies, winner, i, acc).Ok? ==>
            var d := DissatisfiedFrom(ballots, strategies, winner, i, acc).value;
            KeysDistinct(d) &&
            forall p :: p in d <==> p in acc || (i <= p.0 && IsDissatisfied(ballots, strategies, winner, p.0) && p.1 == ballots[p.0])
    decreases |ballots| - i
  {
    if i < |ballots| && ballots[i] != [] {
      if ballots[i][0] != winner && i in Keys(strategies) {
        SnocFresh(acc, i, ballots[i]);
        DissatisfiedEntries(ballots, strategies, winner, i + 1, acc + [(i, ballots[i])]);
      } else {
        DissatisfiedEntries(ballots, strategies, winner, i + 1, acc);
      }
    }
  }

  /** An entry whose key exceeds every present key keeps the keys
      distinct. */
  lemma SnocFresh(acc: Dict<VoterId, Ballot>, i: nat, b: Ballot)
    requires KeysDistinct(acc) && forall p :: p in acc ==> p.0 < i
    ensures KeysDistinct(acc + [(i, b)])
    ensures forall p :: p in acc + [(i, b)] <==> p in acc || p == (i, b)
    ensures forall p :: p in acc + [(i, b)] ==> p.0 < i + 1
  {
    var r := acc + [(i, b)];
    forall a, c | 0 <= a < c < |r|
      ensures r[a].0 != r[c].0
    {
      if c == |acc| {
        assert acc[a] in acc;
      }
    }
  }

  // ---------------------------------------------------------------------
  // Joining groups.

  /** `pref[:2]`: a voter's top two candidates. */
  function Top2(pref: Ballot): seq<Candidate>
  {
    if |pref| < 2 then pref else pref[..2]
  }

  /** Some existing group aims at one of the candidates in `top`. */
  predicate AnyMatching(g: Groups, top: seq<Candidate>)
  {
    exists i :: 0 <= i < |g| && g[i].0 in top
  }

  /** `voter` appended to every existing group aiming at a candidate in
      `top`, the groups keeping their order. */
  function JoinMatching(g: Groups, voter: VoterId, top: seq<Candidate>): (r: Groups)
    ensures |r| == |g| && forall i :: 0 <= i < |g| ==> r[i].0 == g[i].0
  {
    seq(|g|, i requires 0 <= i < |g| => if g[i].0 in top then (g[i].0, g[i].1 + [voter]) else g[i])
  }

  /** The inner loop over `voter_groups.keys()`: the groups after the
      appends, and whether the voter was added anywhere. */
  method JoinExisting(g: Groups, voter: VoterId, top: seq<Candidate>) returns (r: Groups, added: bool)
    ensures r == JoinMatching(g, voter, top) && added == AnyMatching(g, top)
  {
    r := g;
    added := false;
    for i := 0 to |g|
      invariant |r| == |g|
      invariant forall j :: 0 <= j < |g| ==> r[j] == if j < i && g[j].0 in top then (g[j].0, g[j].1 + [voter]) else g[j]
      invariant added <==> exists j :: 0 <= j < i && g[j].0 in top
    {
      if g[i].0 in top {
        r := r[i := (g[i].0, g[i].1 + [voter])];
        added := true;
      }
    }
  }

  /** One voter of the join loop: it joins every group aiming at one of
      its top two candidates. When there is none, it founds a group
      under its first choice, and one under its second unless that is
      the winner; a ballot shorter than two raises IndexError there. */
  function Join(g: Groups, voter: VoterId, pref: Ballot, winner: Candidate): Result<Groups>
  {
    var top := Top2(pref);
    if AnyMatching(g, top) then Ok(JoinMatching(g, voter, top))
    else if |pref| < 2 then Err(IndexError)
    else
      var founded := Append(g, pref[0], voter);
      Ok(if pref[1] != winner then Append(founded, pref[1], voter) else founded)
  }

  /** The join loop over the dissatisfied voters, in order. */
  function JoinAll(g: Groups, d: Dict<VoterId, Ballot>, winner: Candidate): Result<Groups>
    decreases |d|
  {
    if d == [] then Ok(g)
    else match Join(g, d[0].0, d[0].1, winner)
      case Err(e) => Err(e)
      case Ok(g') => JoinAll(g', d[1..], winner)
  }

  /** Joining the matching groups grows exactly the lists of the
      matching keys, by the voter. */
  lemma JoinMatchingList(g: Groups, voter: VoterId, top: seq<Candidate>, k: Candidate)
    requires KeysDistinct(g)
    ensures KeysDistinct(JoinMatching(g, voter, top)) && Keys(JoinMatching(g, voter, top)) == Keys(g)
    ensures ListOf(JoinMatching(g, voter, top), k) ==
            if k in Keys(g) && k in top then ListOf(g, k) + [voter] else ListOf(g, k)
  {
    var r := JoinMatching(g, voter, top);
    forall c ensures c in Keys(r) <==> c in Keys(g) {
      if c in Keys(r) {
        var i :| 0 <= i < |r| && r[i].0 == c;
        assert g[i] in g;
      }
      if c in Keys(g) {
        var i :| 0 <= i < |g| && g[i].0 == c;
        assert r[i] in r;
      }
    }
    if k in Keys(g) {
      var i :| 0 <= i < |g| && g[i].0 == k;
      assert g[i] in g && r[i] in r;
      GetUnique(g, k, g[i].1);
      GetUnique(r, k, r[i].1);
    }
  }

  /** Joining keeps every list non-empty and every listed voter in `s`
      when the joining voter is in `s`. */
  lemma JoinMatchingInside(g: Groups, voter: VoterId, top: seq<Candidate>, s: set<VoterId>)
    requires NonEmptyLists(g) && AllIn(g, s) && voter in s
    ensures NonEmptyLists(JoinMatching(g, voter, top)) && AllIn(JoinMatching(g, voter, top), s)
  {
    var r := JoinMatching(g, voter, top);
    forall p | p in r
      ensures p.1 != [] && forall v :: v in p.1 ==> v in s
    {
      var i :| 0 <= i < |r| && r[i] == p;
      assert g[i] in g;
    }
  }

  /** One voter's join raises exactly when no group matches and the
      ballot is shorter than two; otherwise the keys stay distinct. How
      the lists grow is stated by JoinMatchingList and FoundList for the
      two ways of joining. */
  lemma JoinMeaning(g: Groups, voter: VoterId, pref: Ballot, winner: Candidate)
    requires KeysDistinct(g)
    ensures Join(g, voter, pref, winner).Err? <==> !AnyMatching(g, Top2(pref)) && |pref| < 2
    ensures Join(g, voter, pref, winner).Ok? ==> KeysDistinct(Join(g, voter, pref, winner).value)
  {
    var top := Top2(pref);
    if AnyMatching(g, top) {
      JoinMatchingList(g, voter, top, winner);
    } else if |pref| >= 2 {
      FoundList(g, voter, pref, winner, winner);
    }
  }

  /** A list grown by a voter when `b` holds. */
  function Grow(l: seq<VoterId>, b: bool, v: VoterId): seq<VoterId>
  {
    if b then l + [v] else l
  }

  /** Founding: the voter goes under its first choice, and under its
      second unless that is the winner. */
  lemma FoundList(g: Groups, voter: VoterId, pref: Ballot, winner: Candidate, k: Candidate)
    requires KeysDistinct(g) && |pref| >= 2
    ensures var founded := Append(g, pref[0], voter);
            var r := if pref[1] != winner then Append(founded, pref[1], voter) else founded;
            KeysDistinct(r) &&
            ListOf(r, k) == Grow(Grow(ListOf(g, k), k == pref[0], voter), k == pref[1] && pref[1] != winner, voter)
  {
    var founded := Append(g, pref[0], voter);
    AppendList(g, pref[0], voter, k);
    assert ListOf(founded, k) == Grow(ListOf(g, k), k == pref[0], voter);
    if pref[1] != winner {
      AppendList(founded, pref[1], voter, k);
    }
  }

  /** Every list is non-empty. */
  predicate NonEmptyLists(g: Groups)
  {
    forall p :: p in g ==> p.1 != []
  }

  /** Every listed voter is in `s`. */
  predicate AllIn(g: Groups, s: set<VoterId>)
  {
    forall p, v :: p in g && v in p.1 ==> v in s
  }

  /** Appending a voter of `s` keeps every list non-empty and inside `s`. */
  lemma AppendInside(g: Groups, k: Candidate, v: VoterId, s: set<VoterId>)
    requires NonEmptyLists(g) && AllIn(g, s) && v in s
    ensures NonEmptyLists(Append(g, k, v)) && AllIn(Append(g, k, v), s)
  {
    AppendEntries(g, k, v);
    if k in Keys(g) {
      assert (k, ListOf(g, k)) in g;
    }
  }

  /** The join loop keeps the keys distinct, the lists non-empty and
      every listed voter among the joining ones. It cannot raise when
      every ballot has two candidates or more. */
  lemma {:induction false} JoinAllInside(g: Groups, d: Dict<VoterId, Ballot>, winner: Candidate, s: set<VoterId>)
    requires KeysDistinct(g) && NonEmptyLists(g) && AllIn(g, s)
    requires forall p :: p in d ==> p.0 in s
    ensures (forall p :: p in d ==> |p.1| >= 2) ==> JoinAll(g, d, winner).Ok?
    ensures JoinAll(g, d, winner).Ok? ==>
            var r := JoinAll(g, d, winner).value;
            KeysDistinct(r) && NonEmptyLists(r) && AllIn(r, s)
    decreases |d|
  {
    if d != [] {
      var voter, pref := d[0].0, d[0].1;
      assert d[0] in d;
      JoinMeaning(g, voter, pref, winner);
      var top := Top2(pref);
      if AnyMatching(g, top) {
        JoinMatchingInside(g, voter, top, s);
      } else if |pref| >= 2 {
        AppendInside(g, pref[0], voter, s);
        AppendInside(Append(g, pref[0], voter), pref[1], voter, s);
      }
      if Join(g, voter, pref, winner).Ok? {
        assert forall p :: p in d[1..] ==> p in d;
        JoinAllInside(Join(g, voter, pref, winner).value, d[1..], winner, s);
      }
    }
  }

  // ---------------------------------------------------------------------
  // Moving the voters of single-voter groups.

  /** `{key: voters for key, voters in voter_groups.items() if len(voters) == 1}`. */
  function SinglesOf(g: Groups): (r: Groups)
    ensures forall p :: p in r ==> p in g && |p.1| == 1
  {
    if g == [] then []
    else (if |g[0].1| == 1 then [g[0]] else []) + SinglesOf(g[1..])
  }

  /** `{key for key, voters in voter_groups.items() if len(voters) > 1}`,
      in the order of the groups. */
  function AimsOf(g: Groups): seq<Candidate>
  {
    if g == [] then []
    else (if |g[0].1| > 1 then [g[0].0] else []) + AimsOf(g[1..])
  }

  /** The single-voter groups are exactly the keys whose list has one
      voter, each once. */
  lemma {:induction false} SinglesMeaning(g: Groups)
    requires KeysDistinct(g)
    ensures KeysDistinct(SinglesOf(g))
    ensures forall k :: k in Keys(SinglesOf(g)) <==> k in Keys(g) && |ListOf(g, k)| == 1
  {
    if g != [] {
      var t := g[1..];
      assert forall p :: p in t ==> p in g;
      SinglesMeaning(t);
      forall p | p in t
        ensures p.0 != g[0].0
      {
        var j :| 0 <= j < |t| && t[j] == p;
        assert g[j + 1] == p;
      }
      var head := if |g[0].1| == 1 then [g[0]] else [];
      assert SinglesOf(g) == head + SinglesOf(t);
      KeysConcat(head, SinglesOf(t));
      if |g[0].1| == 1 {
        ConsDistinct(g[0], SinglesOf(t));
      }
      KeysCons(g);
    }
  }

  /** The aims are exactly the keys whose list has two voters or more,
      each once. */
  lemma {:induction false} AimsMeaning(g: Groups)
    requires KeysDistinct(g)
    ensures Distinct(AimsOf(g))
    ensures forall k :: k in AimsOf(g) <==> k in Keys(g) && |ListOf(g, k)| > 1
  {
    if g != [] {
      var t := g[1..];
      assert forall p :: p in t ==> p in g;
      AimsMeaning(t);
      KeysCons(g);
      forall p | p in t
        ensures p.0 != g[0].0
      {
        var j :| 0 <= j < |t| && t[j] == p;
        assert g[j + 1] == p;
      }
      var a := AimsOf(g);
      if |g[0].1| > 1 {
        forall i, j | 0 <= i < j < |a|
          ensures a[i] != a[j]
        {
          if i == 0 {
            assert a[j] == AimsOf(t)[j - 1];
          }
        }
      }
    }
  }

  /** The keys of two dicts one after the other. */
  lemma KeysConcat<V>(a: Dict<Candidate, V>, b: Dict<Candidate, V>)
    ensures Keys(a + b) == Keys(a) + Keys(b)
  {
    assert forall p :: p in a + b <==> p in a || p in b;
  }

  /** The keys of a dict: its first key and the keys of the rest. */
  lemma KeysCons<V>(g: Dict<Candidate, V>)
    requires g != []
    ensures Keys(g) == {g[0].0} + Keys(g[1..])
    ensures forall k :: k != g[0].0 ==> Get(g, k) == Get(g[1..], k)
  {
    assert g == [g[0]] + g[1..];
  }

  /** `pref.index(aim) < pref.index(winner)`: aim before winner on the
      ballot. */
  predicate Above(pref: Ballot, aim: Candidate, winner: Candidate)
  {
    aim in pref && winner in pref && FirstIndex(pref, aim) < FirstIndex(pref, winner)
  }

  /** The comparison of the singles loop; `list.index` raises ValueError
      for a candidate missing from the ballot, the aim being looked up
      first. */
  function RanksAbove(pref: Ballot, aim: Candidate, winner: Candidate): (r: Result<bool>)
    ensures r.Err? <==> !(aim in pref && winner in pref)
    ensures r.Ok? ==> r.value == Above(pref, aim, winner)
  {
    match IndexOf(pref, aim)
      case None => Err(ValueError)
      case Some(ia) =>
        match IndexOf(pref, winner)
          case None => Err(ValueError)
          case Some(iw) => Ok(ia < iw)
  }

  /** The loop over the aims for one single voter: it is appended to
      every aim it ranks above the winner. */
  function MoveTo(g: Groups, aims: seq<Candidate>, voter: VoterId, pref: Ballot, winner: Candidate): Result<Groups>
    decreases |aims|
  {
    if aims == [] then Ok(g)
    else match RanksAbove(pref, aims[0], winner)
      case Err(e) => Err(e)
      case Ok(above) => MoveTo(if above then Append(g, aims[0], voter) else g, aims[1..], voter, pref, winner)
  }

  /** The aims loop for one single voter. */
  method MoveToAims(g: Groups, aims: seq<Candidate>, voter: VoterId, pref: Ballot, winner: Candidate)
    returns (r: Result<Groups>)
    ensures r == MoveTo(g, aims, voter, pref, winner)
  {
    var groups := g;
    for i := 0 to |aims|
      invariant MoveTo(g, aims, voter, pref, winner) == MoveTo(groups, aims[i..], voter, pref, winner)
    {
      assert aims[i..][1..] == aims[i + 1..];
      var ia := IndexOf(pref, aims[i]);
      if ia.None? {
        return Err(ValueError);
      }
      var iw := IndexOf(pref, winner);
      if iw.None? {
        return Err(ValueError);
      }
      if ia.value < iw.value {
        groups := Append(groups, aims[i], voter);
      }
    }
    return Ok(groups);
  }

  /** The aims loop raises exactly when there is an aim and the winner or
      some aim is missing from the ballot. */
  lemma {:induction false} MoveToFails(g: Groups, aims: seq<Candidate>, voter: VoterId, pref: Ballot, winner: Candidate)
    ensures MoveTo(g, aims, voter, pref, winner).Err? <==> exists a :: a in aims && !(a in pref && winner in pref)
    decreases |aims|
  {
    if aims != [] {
      var above := RanksAbove(pref, aims[0], winner);
      if above.Ok? {
        MoveToFails(if above.value then Append(g, aims[0], voter) else g, aims[1..], voter, pref, winner);
        assert forall a :: a in aims <==> a == aims[0] || a in aims[1..];
      }
    }
  }

  /** The aims loop keeps the keys distinct; its keys are the old ones
      and the aims ranked above the winner. */
  lemma {:induction false} MoveToKeys(g: Groups, aims: seq<Candidate>, voter: VoterId, pref: Ballot, winner: Candidate)
    requires KeysDistinct(g)
    ensures MoveTo(g, aims, voter, pref, winner).Ok? ==>
            var r := MoveTo(g, aims, voter, pref, winner).value;
            KeysDistinct(r) && forall c :: c in Keys(r) <==> c in Keys(g) || (c in aims && Above(pref, c, winner))
    decreases |aims|
  {
    if aims != [] {
      var above := RanksAbove(pref, aims[0], winner);
      if above.Ok? {
        var g' := if above.value then Append(g, aims[0], voter) else g;
        if above.value {
          AppendList(g, aims[0], voter, aims[0]);
        }
        MoveToKeys(g', aims[1..], voter, pref, winner);
        assert forall a :: a in aims <==> a == aims[0] || a in aims[1..];
      }
    }
  }

  /** The aims loop keeps every listed voter in `s` when the moving
      voter is in `s`. */
  lemma {:induction false} MoveToInside(g: Groups, aims: seq<Candidate>, voter: VoterId, pref: Ballot, winner: Candidate,
                                        s: set<VoterId>)
    requires AllIn(g, s) && voter in s
    ensures MoveTo(g, aims, voter, pref, winner).Ok? ==> AllIn(MoveTo(g, aims, voter, pref, winner).value, s)
    decreases |aims|
  {
    if aims != [] {
      var above := RanksAbove(pref, aims[0], winner);
      if above.Ok? {
        if above.value {
          AppendEntries(g, aims[0], voter);
          if aims[0] in Keys(g) {
            assert (aims[0], ListOf(g, aims[0])) in g;
          }
        }
        MoveToInside(if above.value then Append(g, aims[0], voter) else g, aims[1..], voter, pref, winner, s);
      }
    }
  }

  /** The aims loop appends the voter once under each (distinct) aim it
      ranks above the winner and leaves every other list alone. */
  lemma {:induction false} MoveToList(g: Groups, aims: seq<Candidate>, voter: VoterId, pref: Ballot, winner: Candidate,
                                      k: Candidate)
    requires KeysDistinct(g) && Distinct(aims)
    requires MoveTo(g, aims, voter, pref, winner).Ok?
    ensures ListOf(MoveTo(g, aims, voter, pref, winner).value, k) ==
            Grow(ListOf(g, k), k in aims && Above(pref, k, winner), voter)
    decreases |aims|
  {
    if aims != [] {
      var above := RanksAbove(pref, aims[0], winner);
      {
        var g' := if above.value then Append(g, aims[0], voter) else g;
        DistinctTail(aims);
        if above.value {
          AppendList(g, aims[0], voter, k);
        }
        MoveToList(g', aims[1..], voter, pref, winner, k);
      }
    }
  }

  /** One single-voter group: its voter is moved to the aims it prefers
      to the winner, then the group is deleted. */
  function MoveSingle(g: Groups, single: (Candidate, seq<VoterId>), aims: seq<Candidate>,
                      ballots: seq<Ballot>, winner: Candidate): Result<Groups>
  {
    if single.1 == [] || single.1[0] >= |ballots| then Err(IndexError)
    else match MoveTo(g, aims, single.1[0], ballots[single.1[0]], winner)
      case Err(e) => Err(e)
      case Ok(moved) => Remove(moved, single.0)
  }

  /** The singles loop, in the order of the single-voter groups. */
  function MoveSingles(g: Groups, singles: Groups, aims: seq<Candidate>, ballots: seq<Ballot>, winner: Candidate): Result<Groups>
    decreases |singles|
  {
    if singles == [] then Ok(g)
    else match MoveSingle(g, singles[0], aims, ballots, winner)
      case Err(e) => Err(e)
      case Ok(g') => MoveSingles(g', singles[1..], aims, ballots, winner)
  }

  /** A list grown by the voter of a single-voter group when that voter
      ranks `a` above the winner. */
  function GrowByMover(l: seq<VoterId>, single: (Candidate, seq<VoterId>), a: Candidate,
                       ballots: seq<Ballot>, winner: Candidate): seq<VoterId>
  {
    if single.1 != [] && single.1[0] < |ballots| && Above(ballots[single.1[0]], a, winner) then l + [single.1[0]] else l
  }

  /** A list grown, in order, by the voters of the single-voter groups
      that rank `a` above the winner. */
  function Moved(l: seq<VoterId>, singles: Groups, a: Candidate, ballots: seq<Ballot>, winner: Candidate): seq<VoterId>
    decreases |singles|
  {
    if singles == [] then l else Moved(GrowByMover(l, singles[0], a, ballots, winner), singles[1..], a, ballots, winner)
  }

  /** One single-voter group: its key is deleted and its voter is
      appended to each aim it prefers to the winner. */
  lemma MoveSingleStep(g: Groups, single: (Candidate, seq<VoterId>), aims: seq<Candidate>, ballots: seq<Ballot>,
                       winner: Candidate, k: Candidate)
    requires KeysDistinct(g) && Distinct(aims)
    requires forall a :: a in aims ==> a in Keys(g)
    requires single.0 in Keys(g) && single.0 !in aims
    requires MoveSingle(g, single, aims, ballots, winner).Ok?
    ensures var r := MoveSingle(g, single, aims, ballots, winner).value;
            KeysDistinct(r) && Keys(r) == Keys(g) - {single.0} &&
            ListOf(r, k) == if k == single.0 then []
                            else if k in aims then GrowByMover(ListOf(g, k), single, k, ballots, winner)
                            else ListOf(g, k)
  {
    var voter := single.1[0];
    var moved := MoveTo(g, aims, voter, ballots[voter], winner).value;
    MoveToKeys(g, aims, voter, ballots[voter], winner);
    assert Keys(moved) == Keys(g);
    MoveToList(g, aims, voter, ballots[voter], winner, k);
    RemoveDistinct(moved, single.0);
    RemoveGet(moved, single.0, k);
  }

  /** The later entries of a dict with distinct keys: entries of it with
      another key than the first. */
  lemma RestKeys<V>(d: Dict<Candidate, V>)
    requires KeysDistinct(d) && d != []
    ensures KeysDistinct(d[1..])
    ensures forall p :: p in d[1..] ==> p in d && p.0 != d[0].0
    ensures forall p :: p in d <==> p == d[0] || p in d[1..]
  {
    forall p | p in d[1..]
      ensures p.0 != d[0].0
    {
      var j :| 0 <= j < |d[1..]| && d[1..][j] == p;
      assert d[j + 1] == p;
    }
    assert d == [d[0]] + d[1..];
  }

  /** The singles loop deletes exactly the single-voter groups, appends
      to each aim the movers that prefer it to the winner, and leaves
      every other group alone. */
  lemma {:induction false} MoveSinglesList(g: Groups, singles: Groups, aims: seq<Candidate>, ballots: seq<Ballot>,
                                           winner: Candidate, k: Candidate)
    requires KeysDistinct(g) && KeysDistinct(singles) && Distinct(aims)
    requires forall a :: a in aims ==> a in Keys(g)
    requires forall p :: p in singles ==> p.0 in Keys(g) && p.0 !in aims
    ensures MoveSingles(g, singles, aims, ballots, winner).Ok? ==>
            var r := MoveSingles(g, singles, aims, ballots, winner).value;
            KeysDistinct(r) &&
            (k in Keys(r) <==> k in Keys(g) && k !in Keys(singles)) &&
            (k in aims ==> ListOf(r, k) == Moved(ListOf(g, k), singles, k, ballots, winner)) &&
            (k !in aims && k !in Keys(singles) ==> ListOf(r, k) == ListOf(g, k))
    decreases |singles|
  {
    if singles != [] && MoveSingle(g, singles[0], aims, ballots, winner).Ok? {
      var single, t := singles[0], singles[1..];
      RestKeys(singles);
      MoveSingleStep(g, single, aims, ballots, winner, k);
      var g' := MoveSingle(g, single, aims, ballots, winner).value;
      MoveSinglesList(g', t, aims, ballots, winner, k);
      KeysCons(singles);
    }
  }

  /** The singles loop keeps every listed voter in `s` when the single
      voters are in `s`. */
  lemma {:induction false} MoveSinglesInside(g: Groups, singles: Groups, aims: seq<Candidate>, ballots: seq<Ballot>,
                                             winner: Candidate, s: set<VoterId>)
    requires KeysDistinct(g) && AllIn(g, s) && AllIn(singles, s)
    ensures MoveSingles(g, singles, aims, ballots, winner).Ok? ==> AllIn(MoveSingles(g, singles, aims, ballots, winner).value, s)
    decreases |singles|
  {
    if singles != [] && MoveSingle(g, singles[0], aims, ballots, winner).Ok? {
      var single := singles[0];
      var voter := single.1[0];
      assert single in singles;
      var moved := MoveTo(g, aims, voter, ballots[voter], winner).value;
      MoveToKeys(g, aims, voter, ballots[voter], winner);
      MoveToInside(g, aims, voter, ballots[voter], winner, s);
      RemoveDistinct(moved, single.0);
      assert forall p :: p in singles[1..] ==> p in singles;
      MoveSinglesInside(Remove(moved, single.0).value, singles[1..], aims, ballots, winner, s);
    }
  }

  /** Whether a single voter's ballot lacks the winner or some aim. */
  predicate Unplaceable(single: (Candidate, seq<VoterId>), aims: seq<Candidate>, ballots: seq<Ballot>, winner: Candidate)
    requires single.1 != [] && single.1[0] < |ballots|
  {
    exists a :: a in aims && !(a in ballots[single.1[0]] && winner in ballots[single.1[0]])
  }

  /** With every single-voter group a key holding a known voter, the
      singles loop raises exactly when some single voter's ballot lacks
      the winner or an aim. */
  lemma {:induction false} MoveSinglesFails(g: Groups, singles: Groups, aims: seq<Candidate>, ballots: seq<Ballot>,
                                            winner: Candidate)
    requires KeysDistinct(g) && KeysDistinct(singles) && Distinct(aims)
    requires forall a :: a in aims ==> a in Keys(g)
    requires forall p :: p in singles ==> p.0 in Keys(g) && p.0 !in aims && p.1 != [] && p.1[0] < |ballots|
    ensures MoveSingles(g, singles, aims, ballots, winner).Err? <==>
            exists p :: p in singles && Unplaceable(p, aims, ballots, winner)
    decreases |singles|
  {
    if singles != [] {
      var single, t := singles[0], singles[1..];
      RestKeys(singles);
      var voter := single.1[0];
      MoveToFails(g, aims, voter, ballots[voter], winner);
      if MoveSingle(g, single, aims, ballots, winner).Ok? {
        MoveSingleStep(g, single, aims, ballots, winner, winner);
        var g' := MoveSingle(g, single, aims, ballots, winner).value;
        assert MoveSingles(g, singles, aims, ballots, winner) == MoveSingles(g', t, aims, ballots, winner);
        assert !Unplaceable(single, aims, ballots, winner);
        MoveSinglesFails(g', t, aims, ballots, winner);
        if exists p :: p in singles && Unplaceable(p, aims, ballots, winner) {
          var p :| p in singles && Unplaceable(p, aims, ballots, winner);
          assert p in t;
        }
      } else {
        MoveToKeys(g, aims, voter, ballots[voter], winner);
        assert Unplaceable(single, aims, ballots, winner);
      }
    }
  }

  /** `group_voters_by_preferences`: the dissatisfied voters joined into
      groups, then the single-voter groups dissolved into the others. */
  function Grouping(ballots: seq<Ballot>, strategies: StrategyLists, winner: Candidate): Result<Groups>
  {
    match Dissatisfied(ballots, strategies, winner)
      case Err(e) => Err(e)
      case Ok(d) =>
        match JoinAll([], d, winner)
          case Err(e) => Err(e)
          case Ok(g) => MoveSingles(g, SinglesOf(g), AimsOf(g), ballots, winner)
  }

  /** The grouping, as the loops of the source. */
  method GroupVotersByPreferences(ballots: seq<Ballot>, strategies: StrategyLists, winner: Candidate)
    returns (r: Result<Groups>)
    ensures r == Grouping(ballots, strategies, winner)
  {
    var dissatisfied := DissatisfiedVoters(ballots, strategies, winner);
    if dissatisfied.Err? {
      return Err(dissatisfied.raised);
    }
    var d := dissatisfied.value;
    var groups: Groups := [];
    for i := 0 to |d|
      invariant JoinAll([], d, winner) == JoinAll(groups, d[i..], winner)
    {
      assert d[i..][1..] == d[i + 1..];
      var voter, pref := d[i].0, d[i].1;
      var joined, added := JoinExisting(groups, voter, Top2(pref));
      if added {
        groups := joined;
      } else {
        if |pref| < 2 {
          return Err(IndexError);
        }
        groups := Append(groups, pref[0], voter);
        if pref[1] != winner {
          groups := Append(groups, pref[1], voter);
        }
      }
    }
    var singles := SinglesOf(groups);
    var aims := AimsOf(groups);
    ghost var joined := groups;
    for i := 0 to |singles|
      invariant MoveSingles(joined, singles, aims, ballots, winner) == MoveSingles(groups, singles[i..], aims, ballots, winner)
    {
      assert singles[i..][1..] == singles[i + 1..];
      var key, voters := singles[i].0, singles[i].1;
      if voters == [] || voters[0] >= |ballots| {
        return Err(IndexError);
      }
      var voter := voters[0];
      var moved := MoveToAims(groups, aims, voter, ballots[voter], winner);
      if moved.Err? {
        return Err(moved.raised);
      }
      var removed := Remove(moved.value, key);
      if removed.Err? {
        return Err(removed.raised);
      }
      groups := removed.value;
    }
    return Ok(groups);
  }

  /** The dissatisfied voters as a set. */
  function DissatisfiedSet(ballots: seq<Ballot>, strategies: StrategyLists, winner: Candidate): (r: set<VoterId>)
    ensures forall v :: v in r <==> IsDissatisfied(ballots, strategies, winner, v)
  {
    set v: VoterId | v < |ballots| && IsDissatisfied(ballots, strategies, winner, v)
  }

  /** The joined groups have distinct keys and non-empty lists of
      dissatisfied voters. */
  lemma JoinedGroups(ballots: seq<Ballot>, strategies: StrategyLists, winner: Candidate)
    requires Dissatisfied(ballots, strategies, winner).Ok?
    requires JoinAll([], Dissatisfied(ballots, strategies, winner).value, winner).Ok?
    ensures var g := JoinAll([], Dissatisfied(ballots, strategies, winner).value, winner).value;
            KeysDistinct(g) && NonEmptyLists(g) && AllIn(g, DissatisfiedSet(ballots, strategies, winner))
  {
    DissatisfiedEntries(ballots, strategies, winner, 0, []);
    JoinAllInside([], Dissatisfied(ballots, strategies, winner).value, winner, DissatisfiedSet(ballots, strategies, winner));
  }

  /** Moving voters in only lengthens a list. */
  lemma {:induction false} MovedLonger(l: seq<VoterId>, singles: Groups, a: Candidate, ballots: seq<Ballot>, winner: Candidate)
    ensures |Moved(l, singles, a, ballots, winner)| >= |l|
    decreases |singles|
  {
    if singles != [] {
      MovedLonger(GrowByMover(l, singles[0], a, ballots, winner), singles[1..], a, ballots, winner);
    }
  }

  /** After the singles loop every remaining group has two voters or
      more, under distinct keys. */
  lemma SurvivorsLarge(g: Groups, ballots: seq<Ballot>, winner: Candidate)
    requires KeysDistinct(g) && NonEmptyLists(g)
    requires MoveSingles(g, SinglesOf(g), AimsOf(g), ballots, winner).Ok?
    ensures var r := MoveSingles(g, SinglesOf(g), AimsOf(g), ballots, winner).value;
            KeysDistinct(r) && forall p :: p in r ==> |p.1| >= 2
  {
    var singles, aims := SinglesOf(g), AimsOf(g);
    SinglesMeaning(g);
    AimsMeaning(g);
    assert forall p :: p in singles ==> p.0 in Keys(singles);
    MoveSinglesList(g, singles, aims, ballots, winner, winner);
    forall p | p in MoveSingles(g, singles, aims, ballots, winner).value
      ensures |p.1| >= 2
    {
      SurvivorLarge(g, singles, aims, ballots, winner, p);
    }
  }

  /** One remaining group: it was a group of two or more, or gained
      only more voters. */
  lemma SurvivorLarge(g: Groups, singles: Groups, aims: seq<Candidate>, ballots: seq<Ballot>, winner: Candidate,
                      p: (Candidate, seq<VoterId>))
    requires KeysDistinct(g) && NonEmptyLists(g) && KeysDistinct(singles) && Distinct(aims)
    requires forall a :: a in aims ==> a in Keys(g)
    requires forall p :: p in singles ==> p.0 in Keys(g) && p.0 !in aims
    requires forall k :: k in Keys(singles) <==> k in Keys(g) && |ListOf(g, k)| == 1
    requires forall k :: k in aims <==> k in Keys(g) && |ListOf(g, k)| > 1
    requires MoveSingles(g, singles, aims, ballots, winner).Ok?
    requires p in MoveSingles(g, singles, aims, ballots, winner).value
    ensures |p.1| >= 2
  {
    var r := MoveSingles(g, singles, aims, ballots, winner).value;
    MoveSinglesList(g, singles, aims, ballots, winner, p.0);
    GetUnique(r, p.0, p.1);
    assert (p.0, ListOf(g, p.0)) in g;
    MovedLonger(ListOf(g, p.0), singles, p.0, ballots, winner);
  }

  /** Every group the grouping returns has two voters or more, all of
      them dissatisfied, under distinct keys. */
  lemma GroupingMeaning(ballots: seq<Ballot>, strategies: StrategyLists, winner: Candidate)
    requires Grouping(ballots, strategies, winner).Ok?
    ensures var r := Grouping(ballots, strategies, winner).value;
            KeysDistinct(r) &&
            forall p :: p in r ==> |p.1| >= 2 && forall v :: v in p.1 ==> IsDissatisfied(ballots, strategies, winner, v)
  {
    JoinedGroups(ballots, strategies, winner);
    var g := JoinAll([], Dissatisfied(ballots, strategies, winner).value, winner).value;
    SurvivorsLarge(g, ballots, winner);
    MoveSinglesInside(g, SinglesOf(g), AimsOf(g), ballots, winner, DissatisfiedSet(ballots, strategies, winner));
  }

  // ---------------------------------------------------------------------
  // collude.

  /** How collude scores a strategic profile: the ranking on it is read
      (`temp_election[0]`, IndexError when it is empty), then the happiness
      of the strategic situation, measured on the sincere ballots, gives
      the totals and the new winner. */
  function Scoring(c: Collaborators, f: HappinessFunc, s: VotingScheme, sincere: seq<Ballot>)
    : seq<Ballot> -> Result<(Happy, Candidate)>
  {
    (strategic: seq<Ballot>) =>
      if c.ranking(s, strategic) == [] then Err(IndexError)
      else Ok(c.situationHappiness(strategic, sincere, f, s))
  }

  /** What the search of collude works with: the honest winner is the
      first entry of the honest ranking, and the change in total happiness
      is reported against `originalTotal`. */
  function ColludeContext(c: Collaborators, f: HappinessFunc, s: VotingScheme, rank: seq<Candidate>,
                          originalTotal: real, strategies: StrategyLists, sincere: seq<Ballot>): Context
    requires rank != []
  {
    Context(strategies, rank[0], sincere, Scoring(c, f, s, sincere), Some(originalTotal))
  }

  /** collude: the coalitions, largest first, searched for the first
      valid one. Every selection reads the honest winner `rank[0][0]`, so
      an empty ranking raises IndexError as soon as there is a coalition. */
  function Collude(c: Collaborators, f: HappinessFunc, s: VotingScheme, coalitions: seq<Coalition>, rank: seq<Candidate>,
                   originalTotal: real, strategies: StrategyLists, sincere: seq<Ballot>): Result<Option<CoalitionInfo>>
  {
    var sorted := SortBySize(coalitions);
    if sorted == [] then Ok(None)
    else if rank == [] then Err(IndexError)
    else Search(ColludeContext(c, f, s, rank, originalTotal, strategies, sincere), sorted, {})
  }

  method ColludeCoalitions(c: Collaborators, f: HappinessFunc, s: VotingScheme, coalitions: seq<Coalition>, rank: seq<Candidate>,
                           originalTotal: real, strategies: StrategyLists, sincere: seq<Ballot>)
    returns (r: Result<Option<CoalitionInfo>>)
    ensures r == Collude(c, f, s, coalitions, rank, originalTotal, strategies, sincere)
  {
    var sorted := SortBySize(coalitions);
    if sorted == [] {
      return Ok(None);
    }
    if rank == [] {
      return Err(IndexError);
    }
    r := SearchCoalitions(ColludeContext(c, f, s, rank, originalTotal, strategies, sincere), sorted);
  }

  /** A coalition collude reports is valid against the honest winner
      `rank[0]`, and its change in total happiness is its new total less
      the honest one. */
  lemma ColludeFound(c: Collaborators, f: HappinessFunc, s: VotingScheme, coalitions: seq<Coalition>, rank: seq<Candidate>,
                     originalTotal: real, strategies: StrategyLists, sincere: seq<Ballot>, info: CoalitionInfo)
    requires Collude(c, f, s, coalitions, rank, originalTotal, strategies, sincere) == Ok(Some(info))
    ensures rank != [] && ValidReport(ColludeContext(c, f, s, rank, originalTotal, strategies, sincere), info)
    ensures info.totalGain.Some? && info.totalGain.value == info.newTotal - originalTotal
  {
    var sorted := SortBySize(coalitions);
    assert sorted != [] && rank != [];
    var ctx := ColludeContext(c, f, s, rank, originalTotal, strategies, sincere);
    assert Search(ctx, sorted, {}) == Ok(Some(info));
    SearchFound(ctx, sorted, {}, info);
    SearchFoundFrom(ctx, sorted, {}, info);
  }

  /** The coalition collude reports is drawn from one of its coalitions. */
  lemma ColludeFrom(c: Collaborators, f: HappinessFunc, s: VotingScheme, coalitions: seq<Coalition>, rank: seq<Candidate>,
                    originalTotal: real, strategies: StrategyLists, sincere: seq<Ballot>, info: CoalitionInfo)
    requires Collude(c, f, s, coalitions, rank, originalTotal, strategies, sincere) == Ok(Some(info))
    ensures exists co :: co in coalitions && forall v :: v in info.coalition ==> v in co.1
  {
    var sorted := SortBySize(coalitions);
    assert sorted != [] && rank != [];
    var ctx := ColludeContext(c, f, s, rank, originalTotal, strategies, sincere);
    assert Search(ctx, sorted, {}) == Ok(Some(info));
    SearchFoundFrom(ctx, sorted, {}, info);
    var k :| 0 <= k < |sorted| && forall v :: v in info.coalition ==> v in sorted[k].1;
    SortPermutes(coalitions);
    assert sorted[k] in multiset(coalitions);
  }

  /** When collude finds nothing, every coalition selected its strategies
      without raising, and each coalition first evaluated, in largest-first
      order, was rejected. */
  lemma ColludeNone(c: Collaborators, f: HappinessFunc, s: VotingScheme, coalitions: seq<Coalition>, rank: seq<Candidate>,
                    originalTotal: real, strategies: StrategyLists, sincere: seq<Ballot>)
    requires Collude(c, f, s, coalitions, rank, originalTotal, strategies, sincere) == Ok(None)
    requires coalitions != []
    ensures rank != []
    ensures var ctx := ColludeContext(c, f, s, rank, originalTotal, strategies, sincere);
            var sorted := SortBySize(coalitions);
            forall k :: 0 <= k < |sorted| ==> SelectFor(ctx, sorted[k]).Ok? &&
                                              (FirstTried(ctx, sorted, {}, k) ==> Rejected(ctx, sorted[k]))
  {
    SortPermutes(coalitions);
    assert coalitions[0] in multiset(SortBySize(coalitions));
    SearchNone(ColludeContext(c, f, s, rank, originalTotal, strategies, sincere), SortBySize(coalitions), {});
  }

  /** With no honest ranking, any coalition makes collude raise
      IndexError; with no coalition it reports nothing. */
  lemma ColludeEmpty(c: Collaborators, f: HappinessFunc, s: VotingScheme, coalitions: seq<Coalition>, rank: seq<Candidate>,
                     originalTotal: real, strategies: StrategyLists, sincere: seq<Ballot>)
    ensures coalitions == [] ==> Collude(c, f, s, coalitions, rank, originalTotal, strategies, sincere) == Ok(None)
    ensures coalitions != [] && rank == [] ==>
            Collude(c, f, s, coalitions, rank, originalTotal, strategies, sincere) == Err(IndexError)
  {
    SortPermutes(coalitions);
    if coalitions != [] {
      assert coalitions[0] in multiset(SortBySize(coalitions));
    }
  }

  /** Every voter of a coalition found among the pairs of the grouping is
      dissatisfied: its sincere first choice is not the winner the
      grouping used, and the single-voter analysis found strategies for
      it. */
  lemma ColludersDissatisfied(c: Collaborators, f: HappinessFunc, s: VotingScheme, sincere: seq<Ballot>,
                              strategies: StrategyLists, winner: Candidate, maxCollusion: int,
                              rank: seq<Candidate>, originalTotal: real, info: CoalitionInfo)
    requires Grouping(sincere, strategies, winner).Ok?
    requires Collude(c, f, s, Pairs(Grouping(sincere, strategies, winner).value, maxCollusion), rank, originalTotal,
                     strategies, sincere) == Ok(Some(info))
    ensures forall v :: v in info.coalition ==> IsDissatisfied(sincere, strategies, winner, v)
  {
    var g := Grouping(sincere, strategies, winner).value;
    ColludeFrom(c, f, s, Pairs(g, maxCollusion), rank, originalTotal, strategies, sincere, info);
    var co :| co in Pairs(g, maxCollusion) && forall v :: v in info.coalition ==> v in co.1;
    PairsMeaning(g, maxCollusion, co.0, co.1);
    var i :| 0 <= i < |g| && FromGroup(g[i], maxCollusion, co.0, co.1);
    var j :| 0 <= j < |Combinations(g[i].1, |co.1|)| && Combinations(g[i].1, |co.1|)[j] == co.1;
    CombinationsFrom(g[i].1, |co.1|, j);
    GroupingMeaning(sincere, strategies, winner);
    assert g[i] in g;
    forall v | v in info.coalition
      ensures IsDissatisfied(sincere, strategies, winner, v)
    {
      var x :| 0 <= x < |co.1| && co.1[x] == v;
    }
  }

  // ---------------------------------------------------------------------
  // analyse_multiple_ATVA.

  /** analyse_single inherited from the single-voter analyser, for one
      strategy type. */
  function Single(c: Collaborators, f: HappinessFunc, s: VotingScheme, st: StrategyType, sincere: seq<Ballot>)
    : Result<Btva.StrategyDict>
  {
    Btva.Analysis(c, IsRankedMetric(f), f, s, sincere, c.situationHappiness(sincere, sincere, f, s).0,
                  c.analyseSituation(sincere, s, f, st, true))
  }

  /** The bullet, burying and compromising analyses of a situation, in
      that order, merged. */
  function Strategic(c: Collaborators, f: HappinessFunc, s: VotingScheme, sincere: seq<Ballot>): Result<Merge>
  {
    match Single(c, f, s, Bullet, sincere)
    case Err(e) => Err(e)
    case Ok(bullet) =>
      match Single(c, f, s, Burying, sincere)
      case Err(e) => Err(e)
      case Ok(bury) =>
        match Single(c, f, s, Compromising, sincere)
        case Err(e) => Err(e)
        case Ok(comp) => Ok(MergeOf(bury, bullet, comp))
  }

  /** With the merged strategies: the grouping under the honest winner,
      its coalitions, and collude against the honest ranking. */
  function CollusionAmong(c: Collaborators, f: HappinessFunc, s: VotingScheme, maxCollusion: int, sincere: seq<Ballot>,
                          merged: StrategyLists): Result<Option<CoalitionInfo>>
  {
    var honest := c.situationHappiness(sincere, sincere, f, s);
    match Grouping(sincere, merged, honest.1)
    case Err(e) => Err(e)
    case Ok(groups) => Collude(c, f, s, Pairs(groups, maxCollusion), c.ranking(s, sincere), honest.0.total, merged, sincere)
  }

  /** One situation of analyse_multiple_ATVA: the coalition found, with
      the honest total happiness; None when fewer than two voters have
      strategies or no coalition is valid. */
  function CollusionIn(c: Collaborators, f: HappinessFunc, s: VotingScheme, maxCollusion: int, sincere: seq<Ballot>)
    : Result<Option<(CoalitionInfo, real)>>
  {
    match Strategic(c, f, s, sincere)
    case Err(e) => Err(e)
    case Ok(NotEnough) => Ok(None)
    case Ok(Merged(merged, _)) =>
      WithTotal(CollusionAmong(c, f, s, maxCollusion, sincere, merged), c.situationHappiness(sincere, sincere, f, s).0.total)
  }

  /** A coalition found, paired with the honest total happiness. */
  function WithTotal(r: Result<Option<CoalitionInfo>>, total: real): Result<Option<(CoalitionInfo, real)>>
  {
    match r
    case Err(e) => Err(e)
    case Ok(None) => Ok(None)
    case Ok(Some(info)) => Ok(Some((info, total)))
  }

  /** The body of the loop of analyse_multiple_ATVA, up to the counting. */
  method FindCollusion(c: Collaborators, f: HappinessFunc, s: VotingScheme, maxCollusion: int, sincere: seq<Ballot>)
    returns (r: Result<Option<(CoalitionInfo, real)>>)
    ensures r == CollusionIn(c, f, s, maxCollusion, sincere)
  {
    var bullet := Btva.AnalyseSingle(c, f, s, Bullet, sincere);
    if bullet.Err? {
      return Err(bullet.raised);
    }
    var bury := Btva.AnalyseSingle(c, f, s, Burying, sincere);
    if bury.Err? {
      return Err(bury.raised);
    }
    var comp := Btva.AnalyseSingle(c, f, s, Compromising, sincere);
    if comp.Err? {
      return Err(comp.raised);
    }
    var result := MergeStrategies(bury.value, bullet.value, comp.value);
    if result.NotEnough? {
      return Ok(None);
    }
    var (happy, originalWinner) := c.situationHappiness(sincere, sincere, f, s);
    var originalRank := c.ranking(s, sincere);
    var groups := GroupVotersByPreferences(sincere, result.merged, originalWinner);
    if groups.Err? {
      return Err(groups.raised);
    }
    var coalitions := FormVoterPairs(groups.value, maxCollusion);
    var stats := ColludeCoalitions(c, f, s, coalitions, originalRank, happy.total, result.merged, sincere);
    match stats
    case Err(e) => return Err(e);
    case Ok(None) => return Ok(None);
    case Ok(Some(info)) => return Ok(Some((info, happy.total)));
  }

  /** A coalition found in a situation is valid against the first entry of
      the honest ranking; it has two members or more, each of whom
      sincerely prefers another candidate to the honest winner; its change
      in total happiness is measured against the honest total. */
  lemma CollusionFound(c: Collaborators, f: HappinessFunc, s: VotingScheme, maxCollusion: int, sincere: seq<Ballot>,
                       info: CoalitionInfo, total: real)
    requires CollusionIn(c, f, s, maxCollusion, sincere) == Ok(Some((info, total)))
    ensures total == c.situationHappiness(sincere, sincere, f, s).0.total
    ensures c.ranking(s, sincere) != [] && info.originalWinner == c.ranking(s, sincere)[0]
    ensures |info.coalition| > 1
    ensures info.totalGain.Some? && info.totalGain.value == info.newTotal - total
    ensures forall v :: v in info.coalition ==>
              v < |sincere| && sincere[v] != [] && sincere[v][0] != c.situationHappiness(sincere, sincere, f, s).1
  {
    var merged := Strategic(c, f, s, sincere).value.merged;
    var found := CollusionAmong(c, f, s, maxCollusion, sincere, merged);
    assert WithTotal(found, c.situationHappiness(sincere, sincere, f, s).0.total) == Ok(Some((info, total)));
    assert found.Ok? && found.value.Some? && found.value.value == info;
    CollusionAmongFound(c, f, s, maxCollusion, sincere, merged, info);
  }

  lemma CollusionAmongFound(c: Collaborators, f: HappinessFunc, s: VotingScheme, maxCollusion: int, sincere: seq<Ballot>,
                            merged: StrategyLists, info: CoalitionInfo)
    requires CollusionAmong(c, f, s, maxCollusion, sincere, merged) == Ok(Some(info))
    ensures c.ranking(s, sincere) != [] && info.originalWinner == c.ranking(s, sincere)[0]
    ensures |info.coalition| > 1
    ensures info.totalGain.Some? && info.totalGain.value == info.newTotal - c.situationHappiness(sincere, sincere, f, s).0.total
    ensures forall v :: v in info.coalition ==>
              v < |sincere| && sincere[v] != [] && sincere[v][0] != c.situationHappiness(sincere, sincere, f, s).1
  {
    var honest := c.situationHappiness(sincere, sincere, f, s);
    var groups := Grouping(sincere, merged, honest.1).value;
    var rank := c.ranking(s, sincere);
    ColludeFound(c, f, s, Pairs(groups, maxCollusion), rank, honest.0.total, merged, sincere, info);
    ColludersDissatisfied(c, f, s, sincere, merged, honest.1, maxCollusion, rank, honest.0.total, info);
  }

  /** What each situation yields, in order. */
  function Outcomes(c: Collaborators, f: HappinessFunc, s: VotingScheme, maxCollusion: int, sits: seq<seq<Ballot>>)
    : (r: seq<Result<Option<(CoalitionInfo, real)>>>)
    ensures |r| == |sits| && forall i :: 0 <= i < |sits| ==> r[i] == CollusionIn(c, f, s, maxCollusion, sits[i])
  {
    seq(|sits|, i requires 0 <= i < |sits| => CollusionIn(c, f, s, maxCollusion, sits[i]))
  }

  /** The number of situations with a coalition, and of those where the
      coalition's new total happiness exceeds the honest total; the first
      situation that raises makes the whole count raise. */
  function Counts(outs: seq<Result<Option<(CoalitionInfo, real)>>>): (r: Result<(nat, nat)>)
    ensures r.Ok? ==> r.value.1 <= r.value.0 <= |outs|
  {
    if outs == [] then Ok((0, 0))
    else Tally(Counts(outs[..|outs| - 1]), outs[|outs| - 1])
  }

  /** `counter` and `happinessGain` after one more situation; an earlier
      error stands. */
  function Tally(counts: Result<(nat, nat)>, found: Result<Option<(CoalitionInfo, real)>>): (r: Result<(nat, nat)>)
    ensures counts.Ok? && r.Ok? ==> counts.value.1 <= r.value.1 <= counts.value.1 + 1 && r.value.0 <= counts.value.0 + 1
    ensures counts.Ok? && r.Ok? && counts.value.1 <= counts.value.0 ==> r.value.1 <= r.value.0
  {
    match counts
    case Err(e) => Err(e)
    case Ok((counter, gain)) =>
      match found
      case Err(e) => Err(e)
      case Ok(None) => Ok((counter, gain))
      case Ok(Some((info, total))) => Ok((counter + 1, if info.newTotal > total then gain + 1 else gain))
  }

  /** analyse_multiple_ATVA's result: `atva1_risk` and
      `happiness_improvement`, as percentages of `num_repititions`. */
  datatype Atva1Result = Atva1Result(risk: real, happinessImprovement: real)

  /** The counts over `num_repititions` times 100, in floating point taken
      as exact; no repetitions divides by zero once the loop is done. */
  function Atva1Risk(outs: seq<Result<Option<(CoalitionInfo, real)>>>, numRepetitions: int): Result<Atva1Result>
  {
    match Counts(outs)
    case Err(e) => Err(e)
    case Ok((counter, gain)) =>
      if numRepetitions == 0 then Err(ZeroDivisionError)
      else Ok(Atva1Result(Percentage(counter, numRepetitions), Percentage(gain, numRepetitions)))
  }

  method AnalyseMultipleAtva(c: Collaborators, sits: seq<seq<Ballot>>, numRepetitions: int, s: VotingScheme,
                             f: HappinessFunc, maxCollusion: int) returns (r: Result<Atva1Result>)
    ensures r == Atva1Risk(Outcomes(c, f, s, maxCollusion, sits), numRepetitions)
  {
    var counter: nat := 0;
    var happinessGain: nat := 0;
    ghost var outs := Outcomes(c, f, s, maxCollusion, sits);
    for i := 0 to |sits|
      invariant Counts(outs[..i]) == Ok((counter, happinessGain))
    {
      var stats := FindCollusion(c, f, s, maxCollusion, sits[i]);
      assert stats == outs[i];
      if stats.Err? {
        CountsRaiseAt(outs, i);
        return Err(stats.raised);
      }
      CountsStep(outs, i, counter, happinessGain);
      if stats.value.Some? {
        counter := counter + 1;
        if stats.value.value.0.newTotal > stats.value.value.1 {
          happinessGain := happinessGain + 1;
        }
      }
    }
    assert outs[..|sits|] == outs;
    if numRepetitions == 0 {
      return Err(ZeroDivisionError);
    }
    return Ok(Atva1Result(Percentage(counter, numRepetitions), Percentage(happinessGain, numRepetitions)));
  }

  /** Once a prefix of the situations raises, the whole count raises the
      same error. */
  lemma {:induction false} CountsRaise(outs: seq<Result<Option<(CoalitionInfo, real)>>>, i: nat)
    requires i <= |outs| && Counts(outs[..i]).Err?
    ensures Counts(outs) == Counts(outs[..i])
    decreases |outs| - i
  {
    if i < |outs| {
      var n := |outs| - 1;
      assert outs[..n][..i] == outs[..i];
      CountsRaise(outs[..n], i);
    } else {
      assert outs[..i] == outs;
    }
  }

  /** One more situation that raises nothing: a coalition adds one to the
      first count, and one to the second when it raises the total
      happiness; otherwise nothing changes. */
  lemma CountsStep(outs: seq<Result<Option<(CoalitionInfo, real)>>>, i: nat, counter: nat, gain: nat)
    requires i < |outs| && Counts(outs[..i]) == Ok((counter, gain)) && outs[i].Ok?
    ensures var found := outs[i].value;
            Counts(outs[..i + 1]) ==
            Ok((if found.Some? then counter + 1 else counter,
                if found.Some? && found.value.0.newTotal > found.value.1 then gain + 1 else gain))
  {
    assert outs[..i + 1][..i] == outs[..i];
  }

  /** The first situation that raises decides the whole count. */
  lemma CountsRaiseAt(outs: seq<Result<Option<(CoalitionInfo, real)>>>, i: nat)
    requires i < |outs| && Counts(outs[..i]).Ok? && outs[i].Err?
    ensures Counts(outs) == Err(outs[i].raised)
  {
    assert outs[..i + 1][..i] == outs[..i];
    CountsRaise(outs, i + 1);
  }

  /** The count raises nothing exactly when no situation raises. */
  lemma {:induction false} CountsOk(outs: seq<Result<Option<(CoalitionInfo, real)>>>)
    ensures Counts(outs).Ok? <==> forall i :: 0 <= i < |outs| ==> outs[i].Ok?
  {
    if outs != [] {
      var n := |outs| - 1;
      CountsOk(outs[..n]);
      assert forall i :: 0 <= i < n ==> outs[..n][i] == outs[i];
    }
  }

  /** With one situation per repetition, the two percentages lie between
      0 and 100, and the improvement never exceeds the risk; with none, the
      analysis divides by zero. */
  lemma RiskBounds(outs: seq<Result<Option<(CoalitionInfo, real)>>>)
    requires Counts(outs).Ok?
    ensures var r := Atva1Risk(outs, |outs|);
            (r.Err? <==> outs == []) &&
            (r.Err? ==> r == Err(ZeroDivisionError)) &&
            (r.Ok? ==> 0.0 <= r.value.happinessImprovement <= r.value.risk <= 100.0)
  {
    if outs != [] {
      var (counter, gain) := Counts(outs).value;
      PercentOrder(gain, counter, |outs|);
    }
  }
}
