/** The older coalition analyser of tva/models/ATVA-1.py. It shares the
    merging of strategies, the coalition enumeration and the strategy
    selection with tva/models/ATVA1.py (module Coalitions) and differs in
    two places. Its grouping puts a voter only into the first group aiming
    at one of its top two candidates, or founds a group under its first
    choice, so every dissatisfied voter is in exactly one group. As
    written, a voter alone in its group moves into each larger group whose
    aim it prefers to the winner and its own group is deleted at every
    such move, which raises KeyError at the second (MoveAndDelete). Two
    corrections fit the code: the later tva/models/ATVA1.py:65-72 appends
    the voter to every such group and deletes its group once, which lists
    it in several groups (DoubleAimJoinsBoth); the grouping here uses the
    step MoveFirst, which moves the voter into the first such group only
    and deletes its group once, so that every voter stays in one group. Its
    collude reads the honest winner before anything else and scores a
    strategic profile through the ranking computed on it. */
module AtvaLegacy {
  import opened Common
  import opened Dicts
  import opened Collaborators
  import opened Coalitions
  import opened Itertools
  import Atva1

  // ---------------------------------------------------------------------
  // Joining groups: the first matching group only.

  /** The key of the first group, in insertion order, that aims at one of
      the candidates in `top`. */
  function FirstMatching(g: Groups, top: seq<Candidate>): Option<Candidate>
    decreases |g|
  {
    if g == [] then None
    else if g[0].0 in top then Some(g[0].0)
    else FirstMatching(g[1..], top)
  }

  /** There is no first matching key exactly when no key is in `top`;
      otherwise it is the key of the earliest group in `top`. */
  lemma {:induction false} FirstMatchingMeaning(g: Groups, top: seq<Candidate>)
    ensures FirstMatching(g, top).None? <==> !Atva1.AnyMatching(g, top)
    ensures FirstMatching(g, top).Some? ==>
            exists i :: 0 <= i < |g| && g[i].0 == FirstMatching(g, top).value && g[i].0 in top &&
                        forall j :: 0 <= j < i ==> g[j].0 !in top
    decreases |g|
  {
    if g != [] {
      if g[0].0 in top {
        assert Atva1.AnyMatching(g, top) by { assert 0 <= 0 < |g| && g[0].0 in top; }
      } else {
        var t := g[1..];
        FirstMatchingMeaning(t, top);
        if FirstMatching(g, top).Some? {
          var i :| 0 <= i < |t| && t[i].0 == FirstMatching(g, top).value && t[i].0 in top &&
                   forall j :: 0 <= j < i ==> t[j].0 !in top;
          assert g[i + 1] == t[i];
          forall j | 0 <= j < i + 1
            ensures g[j].0 !in top
          {
            if j > 0 {
              assert g[j] == t[j - 1];
            }
          }
        }
        if Atva1.AnyMatching(g, top) {
          var i :| 0 <= i < |g| && g[i].0 in top;
          assert t[i - 1] == g[i];
        }
        if Atva1.AnyMatching(t, top) {
          var i :| 0 <= i < |t| && t[i].0 in top;
          assert g[i + 1] == t[i];
        }
      }
    }
  }

  /** The inner loop over `voter_groups.keys()` that stops at the first
      match: the groups after the append, and whether there was one. */
  method JoinFirst(g: Groups, voter: VoterId, top: seq<Candidate>) returns (r: Groups, added: bool)
    ensures added <==> FirstMatching(g, top).Some?
    ensures r == if added then Append(g, FirstMatching(g, top).value, voter) else g
  {
    var i := 0;
    while i < |g|
      invariant 0 <= i <= |g|
      invariant FirstMatching(g, top) == FirstMatching(g[i..], top)
    {
      if g[i].0 in top {
        return Append(g, g[i].0, voter), true;
      }
      assert g[i..][1..] == g[i + 1..];
      i := i + 1;
    }
    return g, false;
  }

  /** One voter of the join loop: appended to the first group aiming at
      one of its top two candidates, else to the group under its first
      choice; an empty ballot raises IndexError there. */
  function Join(g: Groups, voter: VoterId, pref: Ballot): Result<Groups>
  {
    match FirstMatching(g, Atva1.Top2(pref))
      case Some(k) => Ok(Append(g, k, voter))
      case None => if pref == [] then Err(IndexError) else Ok(Append(g, pref[0], voter))
  }

  /** The join loop over the dissatisfied voters, in order. */
  function JoinAll(g: Groups, d: Dict<VoterId, Ballot>): Result<Groups>
    decreases |d|
  {
    if d == [] then Ok(g)
    else match Join(g, d[0].0, d[0].1)
      case Err(e) => Err(e)
      case Ok(g') => JoinAll(g', d[1..])
  }

  /** Every voter of `s`, and no other, is listed in exactly one group,
      and there only once. */
  predicate OnceEach(g: Groups, s: set<VoterId>)
  {
    ListedIn(g, s) && Covers(g, s) && OneGroup(g) && NoRepeats(g)
  }

  /** Only voters of `s` are listed. */
  predicate ListedIn(g: Groups, s: set<VoterId>)
  {
    forall k, v :: v in ListOf(g, k) ==> v in s
  }

  /** Every voter of `s` is listed. */
  predicate Covers(g: Groups, s: set<VoterId>)
  {
    forall v :: v in s ==> exists k :: v in ListOf(g, k)
  }

  /** No voter is listed under two keys. */
  predicate OneGroup(g: Groups)
  {
    forall k1, k2, v :: v in ListOf(g, k1) && v in ListOf(g, k2) ==> k1 == k2
  }

  /** No list repeats a voter. */
  predicate NoRepeats(g: Groups)
  {
    forall k :: Distinct(ListOf(g, k))
  }

  /** A list stays duplicate-free when a new voter is appended. */
  lemma SnocDistinct(l: seq<VoterId>, v: VoterId)
    requires Distinct(l) && v !in l
    ensures Distinct(l + [v])
  {
    var r := l + [v];
    forall i, j | 0 <= i < j < |r|
      ensures r[i] != r[j]
    {
      if j == |l| {
        assert r[i] == l[i];
      }
    }
  }

  /** Appending a voter not yet listed anywhere lists it once. */
  lemma AppendOnce(g: Groups, k: Candidate, v: VoterId, s: set<VoterId>)
    requires KeysDistinct(g) && OnceEach(g, s) && v !in s
    ensures KeysDistinct(Append(g, k, v)) && OnceEach(Append(g, k, v), s + {v})
  {
    AppendList(g, k, v, k);
    AppendListed(g, k, v, s);
    AppendCovers(g, k, v, s);
    AppendOneGroup(g, k, v, s);
    AppendNoRepeats(g, k, v, s);
  }

  lemma AppendListed(g: Groups, k: Candidate, v: VoterId, s: set<VoterId>)
    requires KeysDistinct(g) && ListedIn(g, s)
    ensures ListedIn(Append(g, k, v), s + {v})
  {
    forall k', w | w in ListOf(Append(g, k, v), k')
      ensures w in s + {v}
    {
      AppendList(g, k, v, k');
    }
  }

  lemma AppendCovers(g: Groups, k: Candidate, v: VoterId, s: set<VoterId>)
    requires KeysDistinct(g) && Covers(g, s)
    ensures Covers(Append(g, k, v), s + {v})
  {
    var r := Append(g, k, v);
    forall w | w in s + {v}
      ensures exists k' :: w in ListOf(r, k')
    {
      if w == v {
        AppendList(g, k, v, k);
        assert w in ListOf(r, k);
      } else {
        var k0 :| w in ListOf(g, k0);
        AppendList(g, k, v, k0);
        assert w in ListOf(r, k0);
      }
    }
  }

  lemma AppendOneGroup(g: Groups, k: Candidate, v: VoterId, s: set<VoterId>)
    requires KeysDistinct(g) && ListedIn(g, s) && OneGroup(g) && v !in s
    ensures OneGroup(Append(g, k, v))
  {
    var r := Append(g, k, v);
    forall k1, k2, w | w in ListOf(r, k1) && w in ListOf(r, k2)
      ensures k1 == k2
    {
      AppendList(g, k, v, k1);
      AppendList(g, k, v, k2);
    }
  }

  lemma AppendNoRepeats(g: Groups, k: Candidate, v: VoterId, s: set<VoterId>)
    requires KeysDistinct(g) && ListedIn(g, s) && NoRepeats(g) && v !in s
    ensures NoRepeats(Append(g, k, v))
  {
    forall k' ensures Distinct(ListOf(Append(g, k, v), k')) {
      AppendList(g, k, v, k');
      if k' == k {
        SnocDistinct(ListOf(g, k), v);
      }
    }
  }

  /** The keys of a dict with distinct keys: its first and those of the
      rest, which has distinct keys too. */
  lemma TailKeys<K, V>(d: Dict<K, V>)
    requires KeysDistinct(d) && d != []
    ensures KeysDistinct(d[1..]) && d[0].0 !in Keys(d[1..])
    ensures Keys(d) == {d[0].0} + Keys(d[1..])
    ensures forall p :: p in d[1..] ==> p in d
  {
    var t := d[1..];
    forall p | p in t
      ensures p.0 != d[0].0
    {
      var j :| 0 <= j < |t| && t[j] == p;
      assert d[j + 1] == p;
    }
    assert d == [d[0]] + t;
  }

  /** Joining voters with non-empty ballots never raises and lists each
      joining voter in exactly one group. */
  lemma {:induction false} JoinAllOnce(g: Groups, d: Dict<VoterId, Ballot>, s: set<VoterId>)
    requires KeysDistinct(g) && OnceEach(g, s)
    requires KeysDistinct(d) && forall p :: p in d ==> p.0 !in s && p.1 != []
    ensures JoinAll(g, d).Ok?
    ensures KeysDistinct(JoinAll(g, d).value) && OnceEach(JoinAll(g, d).value, s + Keys(d))
    decreases |d|
  {
    if d == [] {
      assert Keys(d) == {};
    } else {
      var voter, pref := d[0].0, d[0].1;
      assert d[0] in d;
      var k := match FirstMatching(g, Atva1.Top2(pref)) case Some(k) => k case None => pref[0];
      assert Join(g, voter, pref) == Ok(Append(g, k, voter));
      AppendOnce(g, k, voter, s);
      TailKeys(d);
      JoinAllOnce(Append(g, k, voter), d[1..], s + {voter});
      assert s + {voter} + Keys(d[1..]) == s + Keys(d);
    }
  }

  /** The joined dissatisfied voters: each in exactly one group. */
  lemma JoinedOnce(ballots: seq<Ballot>, strategies: StrategyLists, winner: Candidate)
    requires Atva1.Dissatisfied(ballots, strategies, winner).Ok?
    ensures var d := Atva1.Dissatisfied(ballots, strategies, winner).value;
            JoinAll([], d).Ok? && KeysDistinct(JoinAll([], d).value) &&
            OnceEach(JoinAll([], d).value, Atva1.DissatisfiedSet(ballots, strategies, winner))
  {
    var d := Atva1.Dissatisfied(ballots, strategies, winner).value;
    Atva1.DissatisfiedEntries(ballots, strategies, winner, 0, []);
    var s := Atva1.DissatisfiedSet(ballots, strategies, winner);
    forall v ensures v in Keys(d) <==> v in s {
      if v in s {
        assert (v, ballots[v]) in d;
      }
    }
    assert OnceEach([], {});
    JoinAllOnce([], d, {});
    assert {} + Keys(d) == s;
  }

  // ---------------------------------------------------------------------
  // Moving the voters of single-voter groups, as written.

  /** The aims a ballot ranks above the winner, in order. */
  function AboveAims(aims: seq<Candidate>, pref: Ballot, winner: Candidate): (r: seq<Candidate>)
    ensures forall a :: a in r <==> a in aims && Atva1.Above(pref, a, winner)
  {
    if aims == [] then []
    else (if Atva1.Above(pref, aims[0], winner) then [aims[0]] else []) + AboveAims(aims[1..], pref, winner)
  }

  /** The loop over the aims for one single voter, as written: at each aim
      it ranks above the winner the voter is appended to that aim and its
      own group `key` is deleted there and then. */
  function MoveAndDelete(g: Groups, aims: seq<Candidate>, key: Candidate, voter: VoterId, pref: Ballot,
                         winner: Candidate): Result<Groups>
    decreases |aims|
  {
    if aims == [] then Ok(g)
    else match Atva1.RanksAbove(pref, aims[0], winner)
      case Err(e) => Err(e)
      case Ok(above) =>
        if !above then MoveAndDelete(g, aims[1..], key, voter, pref, winner)
        else match Remove(Append(g, aims[0], voter), key)
          case Err(e) => Err(e)
          case Ok(g') => MoveAndDelete(g', aims[1..], key, voter, pref, winner)
  }

  /** With the winner and the aims on the ballot, the loop keeps the
      groups when no aim is preferred, moves the voter when exactly one
      is, and raises KeyError at a second preferred aim, whose deletion
      finds the key gone; a missing key raises at the first one. */
  lemma {:induction false} MoveAndDeleteMeaning(g: Groups, aims: seq<Candidate>, key: Candidate, voter: VoterId,
                                                pref: Ballot, winner: Candidate)
    requires KeysDistinct(g) && key !in aims
    requires winner in pref && forall a :: a in aims ==> a in pref
    ensures var above := AboveAims(aims, pref, winner);
            var r := MoveAndDelete(g, aims, key, voter, pref, winner);
            (above == [] ==> r == Ok(g)) &&
            (|above| == 1 ==> r == Remove(Append(g, above[0], voter), key)) &&
            (|above| >= 2 ==> r == Err(KeyError)) &&
            (key !in Keys(g) && above != [] ==> r == Err(KeyError))
    decreases |aims|
  {
    if aims != [] {
      var a, rest := aims[0], aims[1..];
      assert a in aims;
      assert forall x :: x in rest ==> x in aims;
      var ap := Append(g, a, voter);
      AppendList(g, a, voter, a);
      assert Keys(ap) == Keys(g) + {a};
      if Atva1.Above(pref, a, winner) {
        if key in Keys(ap) {
          RemoveDistinct(ap, key);
          var g' := Remove(ap, key).value;
          MoveAndDeleteMeaning(g', rest, key, voter, pref, winner);
        }
      } else {
        MoveAndDeleteMeaning(g, rest, key, voter, pref, winner);
      }
    }
  }

  /** Whatever the ballot, a successful loop leaves the groups as they
      were or moves the voter to one aim and deletes its group; with its
      group already gone, it leaves them as they were. */
  lemma {:induction false} MoveAndDeleteShape(g: Groups, aims: seq<Candidate>, key: Candidate, voter: VoterId,
                                              pref: Ballot, winner: Candidate)
    requires KeysDistinct(g) && key !in aims
    ensures var r := MoveAndDelete(g, aims, key, voter, pref, winner);
            r.Ok? ==> r.value == g || exists a :: a in aims && Remove(Append(g, a, voter), key) == r
    ensures var r := MoveAndDelete(g, aims, key, voter, pref, winner);
            key !in Keys(g) && r.Ok? ==> r.value == g
    decreases |aims|
  {
    if aims != [] && Atva1.RanksAbove(pref, aims[0], winner).Ok? {
      var a, rest := aims[0], aims[1..];
      assert a in aims;
      var ap := Append(g, a, voter);
      AppendList(g, a, voter, a);
      assert Keys(ap) == Keys(g) + {a};
      if Atva1.Above(pref, a, winner) {
        if key in Keys(ap) {
          RemoveDistinct(ap, key);
          var g' := Remove(ap, key).value;
          MoveAndDeleteShape(g', rest, key, voter, pref, winner);
        }
      } else {
        MoveAndDeleteShape(g, rest, key, voter, pref, winner);
        var r := MoveAndDelete(g, aims, key, voter, pref, winner);
        if r.Ok? && r.value != g {
          var b :| b in rest && Remove(Append(g, b, voter), key) == r;
          assert b in aims;
        }
      }
    }
  }

  /** The aims loop for one single voter, corrected: it stops at the
      first aim the voter prefers to the winner. */
  method MoveVoter(g: Groups, aims: seq<Candidate>, key: Candidate, voter: VoterId, pref: Ballot, winner: Candidate)
    returns (r: Result<Groups>)
    ensures r == MoveFirst(g, aims, key, voter, pref, winner)
  {
    for i := 0 to |aims|
      invariant MoveFirst(g, aims, key, voter, pref, winner) == MoveFirst(g, aims[i..], key, voter, pref, winner)
    {
      assert aims[i..][1..] == aims[i + 1..];
      var ia := IndexOf(pref, aims[i]);
      if ia.None? {
        return Err(ValueError);
      }
      var iw := IndexOf(pref, winner);
      if iw.None? {
        return Err(ValueError);
      }
      if ia.value < iw.value {
        return Remove(Append(g, aims[i], voter), key);
      }
    }
    return Ok(g);
  }

  /** One single-voter group: its voter goes through the aims loop. */
  function MoveSingle(g: Groups, single: (Candidate, seq<VoterId>), aims: seq<Candidate>,
                      ballots: seq<Ballot>, winner: Candidate): Result<Groups>
  {
    if single.1 == [] || single.1[0] >= |ballots| then Err(IndexError)
    else MoveFirst(g, aims, single.0, single.1[0], ballots[single.1[0]], winner)
  }

  /** The singles loop, in the order of the single-voter groups. */
  function MoveSingles(g: Groups, singles: Groups, aims: seq<Candidate>, ballots: seq<Ballot>, winner: Candidate)
    : Result<Groups>
    decreases |singles|
  {
    if singles == [] then Ok(g)
    else match MoveSingle(g, singles[0], aims, ballots, winner)
      case Err(e) => Err(e)
      case Ok(g') => MoveSingles(g', singles[1..], aims, ballots, winner)
  }

  /** Moving a voter that is alone in group `key` to aim `a` and deleting
      `key` keeps each voter in exactly one group and leaves every other
      group alone. */
  lemma MoveStepOnce(g: Groups, key: Candidate, voter: VoterId, a: Candidate, s: set<VoterId>)
    requires KeysDistinct(g) && OnceEach(g, s) && ListOf(g, key) == [voter] && a != key
    ensures Remove(Append(g, a, voter), key).Ok?
    ensures var r := Remove(Append(g, a, voter), key).value;
            KeysDistinct(r) && OnceEach(r, s) &&
            forall k :: k != a && k != key ==> ListOf(r, k) == ListOf(g, k)
  {
    StepList(g, key, voter, a, key);
    var r := Remove(Append(g, a, voter), key).value;
    assert voter in ListOf(g, key);
    assert voter !in ListOf(g, a);
    forall k, w | w in ListOf(r, k)
      ensures w in s
    {
      StepList(g, key, voter, a, k);
    }
    forall w | w in s
      ensures exists k :: w in ListOf(r, k)
    {
      if w == voter {
        StepList(g, key, voter, a, a);
        assert w in ListOf(r, a);
      } else {
        var k0 :| w in ListOf(g, k0);
        StepList(g, key, voter, a, k0);
        assert w in ListOf(r, k0);
      }
    }
    forall k1, k2, w | w in ListOf(r, k1) && w in ListOf(r, k2)
      ensures k1 == k2
    {
      StepList(g, key, voter, a, k1);
      StepList(g, key, voter, a, k2);
    }
    forall k ensures Distinct(ListOf(r, k)) {
      StepList(g, key, voter, a, k);
      if k == a {
        SnocDistinct(ListOf(g, a), voter);
      }
    }
    forall k | k != a && k != key
      ensures ListOf(r, k) == ListOf(g, k)
    {
      StepList(g, key, voter, a, k);
    }
  }

  /** One group after the move: `key` emptied, `a` grown by the voter. */
  lemma StepList(g: Groups, key: Candidate, voter: VoterId, a: Candidate, k: Candidate)
    requires KeysDistinct(g) && ListOf(g, key) == [voter] && a != key
    ensures Remove(Append(g, a, voter), key).Ok?
    ensures KeysDistinct(Remove(Append(g, a, voter), key).value)
    ensures ListOf(Remove(Append(g, a, voter), key).value, k) ==
            if k == key then [] else if k == a then ListOf(g, a) + [voter] else ListOf(g, k)
  {
    var ap := Append(g, a, voter);
    AppendList(g, a, voter, k);
    AppendList(g, a, voter, key);
    assert key in Keys(ap);
    RemoveDistinct(ap, key);
    RemoveGet(ap, key, k);
  }

  /** The singles loop keeps each voter in exactly one group, as long as
      every single-voter group still holds its voter when its turn comes. */
  lemma {:induction false} MoveSinglesOnce(g: Groups, singles: Groups, aims: seq<Candidate>, ballots: seq<Ballot>,
                                           winner: Candidate, s: set<VoterId>)
    requires KeysDistinct(g) && OnceEach(g, s) && KeysDistinct(singles)
    requires forall p :: p in singles ==> p.0 !in aims && |p.1| == 1 && ListOf(g, p.0) == p.1
    ensures MoveSingles(g, singles, aims, ballots, winner).Ok? ==>
            KeysDistinct(MoveSingles(g, singles, aims, ballots, winner).value) &&
            OnceEach(MoveSingles(g, singles, aims, ballots, winner).value, s)
    decreases |singles|
  {
    if singles != [] && MoveSingle(g, singles[0], aims, ballots, winner).Ok? {
      var p := singles[0];
      assert p in singles;
      var voter := p.1[0];
      assert p.1 == [voter];
      TailKeys(singles);
      MoveFirstShape(g, aims, p.0, voter, ballots[voter], winner);
      var g' := MoveSingle(g, p, aims, ballots, winner).value;
      if g' != g {
        var a :| a in aims && Remove(Append(g, a, voter), p.0) == Ok(g');
        MoveStepOnce(g, p.0, voter, a, s);
        forall q | q in singles[1..]
          ensures ListOf(g', q.0) == q.1
        {
          assert q in singles;
        }
      }
      MoveSinglesOnce(g', singles[1..], aims, ballots, winner, s);
    }
  }

  // ---------------------------------------------------------------------
  // The corrected single-voter step.

  /** The corrected step this grouping uses: at the first aim the voter
      ranks above the winner it is appended to that aim, its own group
      `key` is deleted once, and the loop stops, as the join loop does
      with `break`. "First" is in the order of `aims`. */
  function MoveFirst(g: Groups, aims: seq<Candidate>, key: Candidate, voter: VoterId, pref: Ballot,
                     winner: Candidate): Result<Groups>
    decreases |aims|
  {
    if aims == [] then Ok(g)
    else match Atva1.RanksAbove(pref, aims[0], winner)
      case Err(e) => Err(e)
      case Ok(above) =>
        if above then Remove(Append(g, aims[0], voter), key)
        else MoveFirst(g, aims[1..], key, voter, pref, winner)
  }

  /** With the winner and the aims on the ballot and the voter's group
      present, the corrected step never raises: it keeps the groups when
      no aim is preferred, and otherwise moves the voter to the first aim
      it prefers and deletes its group. */
  lemma {:induction false} MoveFirstMeaning(g: Groups, aims: seq<Candidate>, key: Candidate, voter: VoterId,
                                            pref: Ballot, winner: Candidate)
    requires KeysDistinct(g) && key in Keys(g) && key !in aims
    requires winner in pref && forall a :: a in aims ==> a in pref
    ensures var above := AboveAims(aims, pref, winner);
            var r := MoveFirst(g, aims, key, voter, pref, winner);
            r.Ok? &&
            (above == [] ==> r == Ok(g)) &&
            (above != [] ==> r == Remove(Append(g, above[0], voter), key))
    decreases |aims|
  {
    if aims != [] {
      var a, rest := aims[0], aims[1..];
      assert a in aims;
      assert forall x :: x in rest ==> x in aims;
      if Atva1.Above(pref, a, winner) {
        var ap := Append(g, a, voter);
        AppendList(g, a, voter, a);
        assert Keys(ap) == Keys(g) + {a};
        RemoveDistinct(ap, key);
      } else {
        MoveFirstMeaning(g, rest, key, voter, pref, winner);
      }
    }
  }

  /** Whatever the ballot, a successful corrected step leaves the groups
      as they were or moves the voter to one aim and deletes its group. */
  lemma {:induction false} MoveFirstShape(g: Groups, aims: seq<Candidate>, key: Candidate, voter: VoterId,
                                          pref: Ballot, winner: Candidate)
    ensures var r := MoveFirst(g, aims, key, voter, pref, winner);
            r.Ok? ==> r.value == g || exists a :: a in aims && Remove(Append(g, a, voter), key) == r
    decreases |aims|
  {
    if aims != [] && Atva1.RanksAbove(pref, aims[0], winner).Ok? {
      assert aims[0] in aims;
      if !Atva1.Above(pref, aims[0], winner) {
        var rest := aims[1..];
        MoveFirstShape(g, rest, key, voter, pref, winner);
        var r := MoveFirst(g, aims, key, voter, pref, winner);
        if r.Ok? && r.value != g {
          var b :| b in rest && Remove(Append(g, b, voter), key) == r;
          assert b in aims;
        }
      }
    }
  }

  /** The ballot `C D A B W` ranks both aims `A` and `B` above the winner
      `W`. */
  lemma ExampleBallot(aims: seq<Candidate>, pref: Ballot)
    requires aims == ['A', 'B'] && pref == ['C', 'D', 'A', 'B', 'W']
    ensures AboveAims(aims, pref, 'W') == aims && Distinct(aims) && 'C' !in aims
    ensures 'W' in pref && forall a :: a in aims ==> a in pref
  {
    assert FirstIndex(pref, 'A') == 2 && FirstIndex(pref, 'B') == 3 && FirstIndex(pref, 'W') == 4;
    assert Atva1.Above(pref, 'A', 'W') && Atva1.Above(pref, 'B', 'W');
    assert aims[1..] == ['B'] && aims[1..][1..] == [];
    assert AboveAims(aims[1..], pref, 'W') == ['B'];
    assert forall a :: a in aims ==> a == 'A' || a == 'B';
  }

  /** The groups `A: [0, 1]`, `B: [2, 3]` and `C: [4]`. */
  lemma ExampleGroups(g: Groups)
    requires g == [('A', [0, 1]), ('B', [2, 3]), ('C', [4])]
    ensures KeysDistinct(g) && 'C' in Keys(g)
    ensures ListOf(g, 'A') == [0, 1] && ListOf(g, 'B') == [2, 3] && ListOf(g, 'C') == [4]
    ensures ListOf(g, 'A') + [4] == [0, 1, 4] && ListOf(g, 'B') + [4] == [2, 3, 4]
  {
    assert g[0] in g && g[1] in g && g[2] in g;
    GetUnique(g, 'A', [0, 1]);
    GetUnique(g, 'B', [2, 3]);
    GetUnique(g, 'C', [4]);
  }

  /** Voter 4 ranks `C D A B W` with the winner `W` and is alone in group
      `C` beside the groups `A` and `B` of two voters each: as written,
      its second move deletes `C` again and raises KeyError. */
  lemma DoubleAimRaises(g: Groups, aims: seq<Candidate>, pref: Ballot)
    requires g == [('A', [0, 1]), ('B', [2, 3]), ('C', [4])]
    requires aims == ['A', 'B'] && pref == ['C', 'D', 'A', 'B', 'W']
    ensures MoveAndDelete(g, aims, 'C', 4, pref, 'W') == Err(KeyError)
  {
    ExampleBallot(aims, pref);
    ExampleGroups(g);
    MoveAndDeleteMeaning(g, aims, 'C', 4, pref, 'W');
  }

  /** The same voter under the corrected step joins group `A`, the first
      aim it prefers, at the end of its list; group `C` is gone and group
      `B` is left alone. */
  lemma DoubleAimMoves(g: Groups, aims: seq<Candidate>, pref: Ballot)
    requires g == [('A', [0, 1]), ('B', [2, 3]), ('C', [4])]
    requires aims == ['A', 'B'] && pref == ['C', 'D', 'A', 'B', 'W']
    ensures MoveFirst(g, aims, 'C', 4, pref, 'W').Ok?
    ensures ListOf(MoveFirst(g, aims, 'C', 4, pref, 'W').value, 'A') == [0, 1, 4]
    ensures ListOf(MoveFirst(g, aims, 'C', 4, pref, 'W').value, 'B') == [2, 3]
    ensures ListOf(MoveFirst(g, aims, 'C', 4, pref, 'W').value, 'C') == []
  {
    ExampleBallot(aims, pref);
    ExampleGroups(g);
    MoveFirstLists(g, aims, 'C', 4, pref, 'W', 'A');
    MoveFirstLists(g, aims, 'C', 4, pref, 'W', 'B');
    MoveFirstLists(g, aims, 'C', 4, pref, 'W', 'C');
  }

  /** The same voter under the step of tva/models/ATVA1.py:65-72, which
      appends it to every aim it prefers and deletes its group once: it
      ends in both `A` and `B`, so that step does not keep each voter in
      one group as the join of this analyser does. */
  lemma DoubleAimJoinsBoth(g: Groups, single: (Candidate, seq<VoterId>), aims: seq<Candidate>, ballots: seq<Ballot>)
    requires g == [('A', [0, 1]), ('B', [2, 3]), ('C', [4])] && single == ('C', [4])
    requires aims == ['A', 'B'] && |ballots| == 5 && ballots[4] == ['C', 'D', 'A', 'B', 'W']
    ensures Atva1.MoveSingle(g, single, aims, ballots, 'W').Ok?
    ensures var r := Atva1.MoveSingle(g, single, aims, ballots, 'W').value;
            ListOf(r, 'A') == [0, 1, 4] && ListOf(r, 'B') == [2, 3, 4] && 'C' !in Keys(r)
  {
    ExampleBallot(aims, ballots[4]);
    ExampleGroups(g);
    assert g[0] in g && g[1] in g;
    MoveAllLists(g, single, aims, ballots, 'W', 'A');
    MoveAllLists(g, single, aims, ballots, 'W', 'B');
  }

  /** The step of tva/models/ATVA1.py:65-72 on a voter that has the winner
      and every aim on its ballot: it never raises, the voter's group is
      gone, and every aim it prefers grows by the voter. */
  lemma MoveAllLists(g: Groups, single: (Candidate, seq<VoterId>), aims: seq<Candidate>, ballots: seq<Ballot>,
                     winner: Candidate, k: Candidate)
    requires KeysDistinct(g) && Distinct(aims) && forall a :: a in aims ==> a in Keys(g)
    requires single.0 in Keys(g) && single.0 !in aims && single.1 != [] && single.1[0] < |ballots|
    requires winner in ballots[single.1[0]] && forall a :: a in aims ==> a in ballots[single.1[0]]
    ensures Atva1.MoveSingle(g, single, aims, ballots, winner).Ok?
    ensures var r := Atva1.MoveSingle(g, single, aims, ballots, winner).value;
            single.0 !in Keys(r) &&
            ListOf(r, k) == if k == single.0 then []
                            else if k in AboveAims(aims, ballots[single.1[0]], winner) then ListOf(g, k) + [single.1[0]]
                            else ListOf(g, k)
  {
    var voter := single.1[0];
    Atva1.MoveToFails(g, aims, voter, ballots[voter], winner);
    Atva1.MoveToKeys(g, aims, voter, ballots[voter], winner);
    Atva1.MoveSingleStep(g, single, aims, ballots, winner, k);
  }

  /** One group after a corrected step that moves the voter: its own
      group is emptied and the first preferred aim grows by the voter. */
  lemma MoveFirstLists(g: Groups, aims: seq<Candidate>, key: Candidate, voter: VoterId, pref: Ballot,
                       winner: Candidate, k: Candidate)
    requires KeysDistinct(g) && key in Keys(g) && ListOf(g, key) == [voter] && key !in aims
    requires winner in pref && forall a :: a in aims ==> a in pref
    requires AboveAims(aims, pref, winner) != []
    ensures var a := AboveAims(aims, pref, winner)[0];
            var r := MoveFirst(g, aims, key, voter, pref, winner);
            r.Ok? && ListOf(r.value, k) == if k == key then [] else if k == a then ListOf(g, a) + [voter] else ListOf(g, k)
  {
    var above := AboveAims(aims, pref, winner);
    assert above[0] in above;
    MoveFirstMeaning(g, aims, key, voter, pref, winner);
    StepList(g, key, voter, above[0], k);
  }

  // ---------------------------------------------------------------------
  // group_voters_by_preferences.

  /** The grouping: the winner is the first entry of the honest ranking
      (`election_ranking[0][0]`, IndexError when it is empty), then the
      dissatisfied voters are joined and the single voters moved with the
      corrected step. */
  function Grouping(ballots: seq<Ballot>, strategies: StrategyLists, ranking: seq<Candidate>): Result<Groups>
  {
    if ranking == [] then Err(IndexError)
    else match Atva1.Dissatisfied(ballots, strategies, ranking[0])
      case Err(e) => Err(e)
      case Ok(d) =>
        match JoinAll([], d)
          case Err(e) => Err(e)
          case Ok(g) => MoveSingles(g, Atva1.SinglesOf(g), Atva1.AimsOf(g), ballots, ranking[0])
  }

  /** The grouping, as the loops of the source. */
  method GroupVotersByPreferences(ballots: seq<Ballot>, strategies: StrategyLists, ranking: seq<Candidate>)
    returns (r: Result<Groups>)
    ensures r == Grouping(ballots, strategies, ranking)
  {
    if ranking == [] {
      return Err(IndexError);
    }
    var winner := ranking[0];
    var dissatisfied := Atva1.DissatisfiedVoters(ballots, strategies, winner);
    if dissatisfied.Err? {
      return Err(dissatisfied.raised);
    }
    var d := dissatisfied.value;
    var groups: Groups := [];
    for i := 0 to |d|
      invariant JoinAll([], d) == JoinAll(groups, d[i..])
    {
      assert d[i..][1..] == d[i + 1..];
      var voter, pref := d[i].0, d[i].1;
      var joined, added := JoinFirst(groups, voter, Atva1.Top2(pref));
      if added {
        groups := joined;
      } else {
        if pref == [] {
          return Err(IndexError);
        }
        groups := Append(groups, pref[0], voter);
      }
    }
    var singles := Atva1.SinglesOf(groups);
    var aims := Atva1.AimsOf(groups);
    ghost var joined := groups;
    for i := 0 to |singles|
      invariant MoveSingles(joined, singles, aims, ballots, winner) == MoveSingles(groups, singles[i..], aims, ballots, winner)
    {
      assert singles[i..][1..] == singles[i + 1..];
      var key, voters := singles[i].0, singles[i].1;
      if voters == [] || voters[0] >= |ballots| {
        return Err(IndexError);
      }
      var moved := MoveVoter(groups, aims, key, voters[0], ballots[voters[0]], winner);
      if moved.Err? {
        return Err(moved.raised);
      }
      groups := moved.value;
    }
    return Ok(groups);
  }

  /** A successful grouping lists every dissatisfied voter, and no other,
      in exactly one group, once, under distinct keys. */
  lemma GroupingOnce(ballots: seq<Ballot>, strategies: StrategyLists, ranking: seq<Candidate>)
    requires Grouping(ballots, strategies, ranking).Ok?
    ensures ranking != []
    ensures KeysDistinct(Grouping(ballots, strategies, ranking).value)
    ensures OnceEach(Grouping(ballots, strategies, ranking).value, Atva1.DissatisfiedSet(ballots, strategies, ranking[0]))
  {
    var winner := ranking[0];
    JoinedOnce(ballots, strategies, winner);
    var g := JoinAll([], Atva1.Dissatisfied(ballots, strategies, winner).value).value;
    var singles, aims := Atva1.SinglesOf(g), Atva1.AimsOf(g);
    Atva1.SinglesMeaning(g);
    Atva1.AimsMeaning(g);
    forall p | p in singles
      ensures p.0 !in aims && |p.1| == 1 && ListOf(g, p.0) == p.1
    {
      GetUnique(g, p.0, p.1);
    }
    MoveSinglesOnce(g, singles, aims, ballots, winner, Atva1.DissatisfiedSet(ballots, strategies, winner));
  }

  // ---------------------------------------------------------------------
  // form_voter_pairs and collude.

  /** The default `max_size` of form_voter_pairs. */
  const DefaultMaxSize := 3

  /** With the default size, every coalition has two or three voters,
      all from one group. */
  lemma DefaultPairs(groups: Groups, k: Candidate, c: seq<VoterId>)
    requires (k, c) in Pairs(groups, DefaultMaxSize)
    ensures 2 <= |c| <= 3
    ensures exists i :: 0 <= i < |groups| && groups[i].0 == k && forall v :: v in c ==> v in groups[i].1
  {
    PairsMeaning(groups, DefaultMaxSize, k, c);
    var i :| 0 <= i < |groups| && FromGroup(groups[i], DefaultMaxSize, k, c);
    var j :| 0 <= j < |Combinations(groups[i].1, |c|)| && Combinations(groups[i].1, |c|)[j] == c;
    CombinationsFrom(groups[i].1, |c|, j);
    forall v | v in c
      ensures v in groups[i].1
    {
      var x :| 0 <= x < |c| && c[x] == v;
    }
  }

  /** How this collude scores a strategic profile: the ranking on it is
      read (`temp_election[0][0]`, IndexError when it is empty). Ranked
      metrics score `temp_election[0]`, which is the first candidate alone
      (a one-letter string), and the others score that candidate as the
      winner; both against the sincere ballots. */
  function Scoring(c: Collaborators, f: HappinessFunc, s: VotingScheme, sincere: seq<Ballot>)
    : seq<Ballot> -> Result<(Happy, Candidate)>
  {
    (strategic: seq<Ballot>) =>
      var ranking := c.ranking(s, strategic);
      if ranking == [] then Err(IndexError)
      else Ok((if IsRankedMetric(f) then c.calculateRanked(sincere, [ranking[0]], f) else c.calculate(sincere, ranking[0], f),
               ranking[0]))
  }

  /** What the search works with: the honest winner is the first entry
      of the honest ranking, and the report carries no change in total
      happiness. */
  function ColludeContext(c: Collaborators, f: HappinessFunc, s: VotingScheme, ranking: seq<Candidate>,
                          strategies: StrategyLists, sincere: seq<Ballot>): Context
    requires ranking != []
  {
    Context(strategies, ranking[0], sincere, Scoring(c, f, s, sincere), None)
  }

  /** collude: the honest winner is read first, so an empty ranking raises
      IndexError even with no coalition; then the coalitions, largest
      first, are searched for the first valid one. */
  function Collude(c: Collaborators, f: HappinessFunc, s: VotingScheme, coalitions: seq<Coalition>,
                   ranking: seq<Candidate>, strategies: StrategyLists, sincere: seq<Ballot>): Result<Option<CoalitionInfo>>
  {
    if ranking == [] then Err(IndexError)
    else Search(ColludeContext(c, f, s, ranking, strategies, sincere), SortBySize(coalitions), {})
  }

  method ColludeCoalitions(c: Collaborators, f: HappinessFunc, s: VotingScheme, coalitions: seq<Coalition>,
                           ranking: seq<Candidate>, strategies: StrategyLists, sincere: seq<Ballot>)
    returns (r: Result<Option<CoalitionInfo>>)
    ensures r == Collude(c, f, s, coalitions, ranking, strategies, sincere)
  {
    if ranking == [] {
      return Err(IndexError);
    }
    var sorted := SortBySize(coalitions);
    r := SearchCoalitions(ColludeContext(c, f, s, ranking, strategies, sincere), sorted);
  }

  /** A reported coalition is valid against the honest winner and
      reports no change in total happiness. */
  lemma ColludeFound(c: Collaborators, f: HappinessFunc, s: VotingScheme, coalitions: seq<Coalition>,
                     ranking: seq<Candidate>, strategies: StrategyLists, sincere: seq<Ballot>, info: CoalitionInfo)
    requires Collude(c, f, s, coalitions, ranking, strategies, sincere) == Ok(Some(info))
    ensures ranking != [] && ValidReport(ColludeContext(c, f, s, ranking, strategies, sincere), info)
    ensures info.totalGain.None?
  {
    var ctx := ColludeContext(c, f, s, ranking, strategies, sincere);
    var sorted := SortBySize(coalitions);
    assert Search(ctx, sorted, {}) == Ok(Some(info));
    SearchFound(ctx, sorted, {}, info);
    SearchFoundFrom(ctx, sorted, {}, info);
  }

  /** The reported coalition is drawn from one of the coalitions. */
  lemma ColludeFrom(c: Collaborators, f: HappinessFunc, s: VotingScheme, coalitions: seq<Coalition>,
                    ranking: seq<Candidate>, strategies: StrategyLists, sincere: seq<Ballot>, info: CoalitionInfo)
    requires Collude(c, f, s, coalitions, ranking, strategies, sincere) == Ok(Some(info))
    ensures exists co :: co in coalitions && forall v :: v in info.coalition ==> v in co.1
  {
    var ctx := ColludeContext(c, f, s, ranking, strategies, sincere);
    var sorted := SortBySize(coalitions);
    assert Search(ctx, sorted, {}) == Ok(Some(info));
    SearchFoundFrom(ctx, sorted, {}, info);
    var k :| 0 <= k < |sorted| && forall v :: v in info.coalition ==> v in sorted[k].1;
    SortPermutes(coalitions);
    assert sorted[k] in multiset(coalitions);
  }

  /** When nothing is found, every coalition selected its strategies
      without raising, and each coalition first evaluated, in
      largest-first order, was rejected. */
  lemma ColludeNone(c: Collaborators, f: HappinessFunc, s: VotingScheme, coalitions: seq<Coalition>,
                    ranking: seq<Candidate>, strategies: StrategyLists, sincere: seq<Ballot>)
    requires Collude(c, f, s, coalitions, ranking, strategies, sincere) == Ok(None)
    ensures ranking != []
    ensures var ctx := ColludeContext(c, f, s, ranking, strategies, sincere);
            var sorted := SortBySize(coalitions);
            forall k :: 0 <= k < |sorted| ==> SelectFor(ctx, sorted[k]).Ok? &&
                                              (FirstTried(ctx, sorted, {}, k) ==> Rejected(ctx, sorted[k]))
  {
    SearchNone(ColludeContext(c, f, s, ranking, strategies, sincere), SortBySize(coalitions), {});
  }

  /** Every colluder of a coalition found among the pairs of the grouping
      is dissatisfied with the honest winner. */
  lemma ColludersDissatisfied(c: Collaborators, f: HappinessFunc, s: VotingScheme, sincere: seq<Ballot>,
                              strategies: StrategyLists, ranking: seq<Candidate>, maxSize: int, info: CoalitionInfo)
    requires Grouping(sincere, strategies, ranking).Ok?
    requires Collude(c, f, s, Pairs(Grouping(sincere, strategies, ranking).value, maxSize), ranking, strategies, sincere)
             == Ok(Some(info))
    ensures ranking != []
    ensures forall v :: v in info.coalition ==> Atva1.IsDissatisfied(sincere, strategies, ranking[0], v)
  {
    var g := Grouping(sincere, strategies, ranking).value;
    GroupingOnce(sincere, strategies, ranking);
    ColludeFrom(c, f, s, Pairs(g, maxSize), ranking, strategies, sincere, info);
    var co :| co in Pairs(g, maxSize) && forall v :: v in info.coalition ==> v in co.1;
    PairsMeaning(g, maxSize, co.0, co.1);
    var i :| 0 <= i < |g| && FromGroup(g[i], maxSize, co.0, co.1);
    var j :| 0 <= j < |Combinations(g[i].1, |co.1|)| && Combinations(g[i].1, |co.1|)[j] == co.1;
    CombinationsFrom(g[i].1, |co.1|, j);
    assert g[i] in g;
    GetUnique(g, g[i].0, g[i].1);
    forall v | v in info.coalition
      ensures Atva1.IsDissatisfied(sincere, strategies, ranking[0], v)
    {
      var x :| 0 <= x < |co.1| && co.1[x] == v;
      assert v in ListOf(g, g[i].0);
    }
  }
}
