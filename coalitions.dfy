/** The coalition machinery of the collusion analysers tva/models/ATVA1.py
    and tva/models/ATVA-1.py. Both files carry the same `merge_strategies`,
    `form_voter_pairs` and `select_best_strategy` code and the same search
    loop in `collude`; what differs between them (grouping, how the
    honest winner is read, how a coalition's outcome is scored) lives in
    the modules Atva1 and AtvaLegacy, which pass it in. */
module Coalitions {
  import opened Common
  import opened Dicts
  import opened Collaborators
  import opened Itertools

  /** The strategy dicts the BTVA analysis returns and `merge_strategies`
      builds: per voter, a list of strategy records. */
  type StrategyLists = Dict<VoterId, seq<StrategyRecord>>

  // ---------------------------------------------------------------------
  // merge_strategies

  /** `{tuple(s['strategy']) for s in l}`: the ballots of a strategy list. */
  function BallotSet(l: seq<StrategyRecord>): set<Ballot>
  {
    set s | s in l :: s.strategy
  }

  /** One step of the merge: strategy `s` of voter `v` is appended to the
      voter's list unless a strategy with the same ballot is there. */
  function AddIfNew(m: StrategyLists, v: VoterId, s: StrategyRecord): StrategyLists
  {
    if s.strategy in BallotSet(ListOf(m, v)) then m else Put(m, v, ListOf(m, v) + [s])
  }

  /** The merge of a sequence of (voter, strategy) events into `m`, in order. */
  function MergeAll(m: StrategyLists, evs: seq<(VoterId, StrategyRecord)>): StrategyLists
    decreases |evs|
  {
    if evs == [] then m
    else AddIfNew(MergeAll(m, evs[..|evs| - 1]), evs[|evs| - 1].0, evs[|evs| - 1].1)
  }

  /** Every element of `xs` paired with `key`, in order: one voter's
      strategies as events, or the combinations of one group tagged with
      its key. */
  function Tagged<K, X>(key: K, xs: seq<X>): (r: seq<(K, X)>)
    ensures |r| == |xs| && forall i :: 0 <= i < |xs| ==> r[i] == (key, xs[i])
  {
    seq(|xs|, i requires 0 <= i < |xs| => (key, xs[i]))
  }

  /** The events of one strategy dict, voter by voter in key order. */
  function DictEvents(d: StrategyLists): seq<(VoterId, StrategyRecord)>
  {
    if d == [] then [] else DictEvents(d[..|d| - 1]) + Tagged(d[|d| - 1].0, d[|d| - 1].1)
  }

  /** The events of several strategy dicts, one dict after the other. */
  function AllEvents(ds: seq<StrategyLists>): seq<(VoterId, StrategyRecord)>
  {
    if ds == [] then [] else AllEvents(ds[..|ds| - 1]) + DictEvents(ds[|ds| - 1])
  }

  /** `{k: v for k, v in merged.items() if v}`. */
  function NonEmptyEntries(m: StrategyLists): (r: StrategyLists)
    ensures forall p :: p in r <==> p in m && p.1 != []
  {
    if m == [] then []
    else (if m[0].1 != [] then [m[0]] else []) + NonEmptyEntries(m[1..])
  }

  /** What `merge_strategies` returns: `[False]`, or `[True, merged,
      voter_indexes]`. */
  datatype Merge = NotEnough | Merged(merged: StrategyLists, voterIndexes: seq<VoterId>)

  /** The merge of the bury, bullet and compromise analyses, in that order. */
  function MergeOf(bury: StrategyLists, bullets: StrategyLists, comp: StrategyLists): Merge
  {
    var m := NonEmptyEntries(MergeAll([], AllEvents([bury, bullets, comp])));
    if |KeyList(m)| < 2 then NotEnough else Merged(m, KeyList(m))
  }

  /** ATVA1.merge_strategies. */
  method MergeStrategies(bury: StrategyLists, bullets: StrategyLists, comp: StrategyLists) returns (r: Merge)
    ensures r == MergeOf(bury, bullets, comp)
  {
    var merged: StrategyLists := [];
    var dicts := [bury, bullets, comp];
    for i := 0 to |dicts|
      invariant KeysDistinct(merged)
      invariant merged == MergeAll([], AllEvents(dicts[..i]))
    {
      assert dicts[..i + 1][..i] == dicts[..i];
      MergeAllAppend([], AllEvents(dicts[..i]), DictEvents(dicts[i]));
      merged := MergeDict(merged, dicts[i]);
    }
    assert dicts[..|dicts|] == dicts;
    merged := NonEmptyEntries(merged);
    var voterIndexes := KeyList(merged);
    if |voterIndexes| < 2 {
      return NotEnough;
    }
    return Merged(merged, voterIndexes);
  }

  /** The loop over the entries of one strategy dict. */
  method MergeDict(merged: StrategyLists, d: StrategyLists) returns (merged': StrategyLists)
    requires KeysDistinct(merged)
    ensures KeysDistinct(merged')
    ensures merged' == MergeAll(merged, DictEvents(d))
  {
    merged' := merged;
    for k := 0 to |d|
      invariant KeysDistinct(merged')
      invariant merged' == MergeAll(merged, DictEvents(d[..k]))
    {
      var (v, strategies) := d[k];
      assert d[..k + 1][..k] == d[..k];
      MergeAllAppend(merged, DictEvents(d[..k]), Tagged(v, strategies));
      if strategies != [] {
        merged' := MergeVoter(merged', v, strategies);
      } else {
        assert DictEvents(d[..k + 1]) == DictEvents(d[..k]);
      }
    }
    assert d[..|d|] == d;
  }

  /** The loop over one voter's strategies, with the set of ballots
      already merged for that voter. */
  method MergeVoter(merged: StrategyLists, v: VoterId, strategies: seq<StrategyRecord>) returns (merged': StrategyLists)
    requires KeysDistinct(merged)
    ensures KeysDistinct(merged')
    ensures merged' == MergeAll(merged, Tagged(v, strategies))
  {
    merged' := merged;
    var existing := BallotSet(ListOf(merged, v));
    for j := 0 to |strategies|
      invariant KeysDistinct(merged')
      invariant merged' == MergeAll(merged, Tagged(v, strategies[..j]))
      invariant existing == BallotSet(ListOf(merged', v))
    {
      var strategy := strategies[j];
      TaggedSnoc(v, strategies, j);
      MergeAllSnoc(merged, Tagged(v, strategies[..j]), (v, strategy));
      AddIfNewStep(merged', v, strategy);
      if strategy.strategy !in existing {
        merged' := Put(merged', v, ListOf(merged', v) + [strategy]);
        existing := existing + {strategy.strategy};
      }
    }
    assert strategies[..|strategies|] == strategies;
  }

  // ---------------------------------------------------------------------
  // The merge, voter by voter.

  /** The strategies of voter `v` among the events, in order. */
  function Proj(evs: seq<(VoterId, StrategyRecord)>, v: VoterId): seq<StrategyRecord>
  {
    if evs == [] then []
    else Proj(evs[..|evs| - 1], v) + (if evs[|evs| - 1].0 == v then [evs[|evs| - 1].1] else [])
  }

  /** The lists of `v` in the dicts `ds`, one after the other (absent
      voters contributing nothing). */
  function Combined(ds: seq<StrategyLists>, v: VoterId): seq<StrategyRecord>
  {
    if ds == [] then [] else Combined(ds[..|ds| - 1], v) + ListOf(ds[|ds| - 1], v)
  }

  /** `s` appended to `p` unless a strategy with its ballot is there. */
  function DedupStep(p: seq<StrategyRecord>, s: StrategyRecord): seq<StrategyRecord>
  {
    if s.strategy in BallotSet(p) then p else p + [s]
  }

  /** `l` appended to `acc`, skipping every strategy whose ballot is
      already present. */
  function DedupInto(acc: seq<StrategyRecord>, l: seq<StrategyRecord>): seq<StrategyRecord>
  {
    if l == [] then acc else DedupStep(DedupInto(acc, l[..|l| - 1]), l[|l| - 1])
  }

  /** The first strategy of every ballot in `l`, in order. */
  function Dedup(l: seq<StrategyRecord>): seq<StrategyRecord>
  {
    DedupInto([], l)
  }

  /** No two strategies of a list share a ballot. */
  predicate BallotsDistinct(l: seq<StrategyRecord>)
  {
    forall i, j :: 0 <= i < j < |l| ==> l[i].strategy != l[j].strategy
  }

  /** `s` occurs in `l` at a position before which no strategy has its
      ballot. */
  predicate FirstOccurrence(l: seq<StrategyRecord>, s: StrategyRecord)
  {
    exists i :: 0 <= i < |l| && l[i] == s && s.strategy !in BallotSet(l[..i])
  }

  /** The keys of all the dicts `ds`. */
  function KeysUnion(ds: seq<StrategyLists>): set<VoterId>
  {
    if ds == [] then {} else KeysUnion(ds[..|ds| - 1]) + Keys(ds[|ds| - 1])
  }

  /** The voters with at least one strategy in one of the dicts `ds`. */
  function StrategicVoters(ds: seq<StrategyLists>): set<VoterId>
  {
    set v | v in KeysUnion(ds) && Combined(ds, v) != []
  }

  /** Every listed voter has at least one strategy. */
  predicate AllNonEmpty(m: StrategyLists)
  {
    forall p :: p in m ==> p.1 != []
  }

  // ---------------------------------------------------------------------
  // Properties of the merge.

  /** The merged list of a voter is the voter's bury, then bullet, then
      compromise strategies with every repeated ballot dropped; a voter
      is listed exactly when it has a strategy in one of them. */
  lemma MergeLists(bury: StrategyLists, bullets: StrategyLists, comp: StrategyLists, v: VoterId)
    requires KeysDistinct(bury) && KeysDistinct(bullets) && KeysDistinct(comp)
    requires MergeOf(bury, bullets, comp).Merged?
    ensures ListOf(MergeOf(bury, bullets, comp).merged, v) == Dedup(Combined([bury, bullets, comp], v))
    ensures v in Keys(MergeOf(bury, bullets, comp).merged) <==> Combined([bury, bullets, comp], v) != []
    ensures MergeOf(bury, bullets, comp).voterIndexes == KeyList(MergeOf(bury, bullets, comp).merged)
  {
    var ds := [bury, bullets, comp];
    ThreeDistinct(bury, bullets, comp);
    var m := MergeAll([], AllEvents(ds));
    MergeAllNonEmpty([], AllEvents(ds));
    assert NonEmptyEntries(m) == m by {
      NonEmptyIdentity(m);
    }
    MergeAllList([], AllEvents(ds), v);
    ProjAll(ds, v);
    DedupBallots([], Combined(ds, v));
  }

  /** No merged list repeats a ballot, and each of its strategies is the
      first one with its ballot in the voter's combined lists. */
  lemma MergeFirstOccurrences(bury: StrategyLists, bullets: StrategyLists, comp: StrategyLists, v: VoterId)
    requires KeysDistinct(bury) && KeysDistinct(bullets) && KeysDistinct(comp)
    requires MergeOf(bury, bullets, comp).Merged?
    ensures BallotsDistinct(ListOf(MergeOf(bury, bullets, comp).merged, v))
    ensures forall s :: s in ListOf(MergeOf(bury, bullets, comp).merged, v) ==>
              FirstOccurrence(Combined([bury, bullets, comp], v), s)
  {
    MergeLists(bury, bullets, comp, v);
    DedupDistinct([], Combined([bury, bullets, comp], v));
    DedupFirst(Combined([bury, bullets, comp], v));
  }

  /** `merge_strategies` reports too few voters exactly when fewer than
      two voters have a strategy in one of the three analyses. */
  lemma MergeNotEnough(bury: StrategyLists, bullets: StrategyLists, comp: StrategyLists)
    requires KeysDistinct(bury) && KeysDistinct(bullets) && KeysDistinct(comp)
    ensures MergeOf(bury, bullets, comp).NotEnough? <==> |StrategicVoters([bury, bullets, comp])| < 2
  {
    var ds := [bury, bullets, comp];
    ThreeDistinct(bury, bullets, comp);
    var m := MergeAll([], AllEvents(ds));
    MergeAllNonEmpty([], AllEvents(ds));
    MergeAllDistinct([], AllEvents(ds));
    NonEmptyIdentity(m);
    KeysCard(m);
    MergedVoters(ds);
  }

  /** The merged voters are the voters with a strategy. */
  lemma MergedVoters(ds: seq<StrategyLists>)
    requires EachDistinct(ds)
    ensures Keys(MergeAll([], AllEvents(ds))) == StrategicVoters(ds)
  {
    forall v | true
      ensures v in Keys(MergeAll([], AllEvents(ds))) <==> v in StrategicVoters(ds)
    {
      MergeKeys(ds, v);
      if Combined(ds, v) != [] {
        CombinedKeys(ds, v);
      }
    }
  }

  predicate EachDistinct(ds: seq<StrategyLists>)
  {
    forall i :: 0 <= i < |ds| ==> KeysDistinct(ds[i])
  }

  lemma ThreeDistinct(bury: StrategyLists, bullets: StrategyLists, comp: StrategyLists)
    requires KeysDistinct(bury) && KeysDistinct(bullets) && KeysDistinct(comp)
    ensures EachDistinct([bury, bullets, comp])
  {
  }

  /** Merging the events of `a` then `b` is merging `a`, then merging `b`
      into the result. */
  lemma {:induction false} MergeAllAppend(m: StrategyLists, a: seq<(VoterId, StrategyRecord)>, b: seq<(VoterId, StrategyRecord)>)
    ensures MergeAll(m, a + b) == MergeAll(MergeAll(m, a), b)
    decreases |b|
  {
    if b == [] {
      assert a + b == a;
    } else {
      assert (a + b)[..|a + b| - 1] == a + b[..|b| - 1];
      MergeAllAppend(m, a, b[..|b| - 1]);
    }
  }

  lemma TaggedSnoc(v: VoterId, l: seq<StrategyRecord>, j: nat)
    requires j < |l|
    ensures Tagged(v, l[..j + 1]) == Tagged(v, l[..j]) + [(v, l[j])]
  {
  }

  /** A merge step keeps the keys distinct and adds the strategy's ballot
      to the voter's ballots. */
  lemma AddIfNewStep(m: StrategyLists, v: VoterId, s: StrategyRecord)
    requires KeysDistinct(m)
    ensures KeysDistinct(AddIfNew(m, v, s))
    ensures BallotSet(ListOf(AddIfNew(m, v, s), v)) == BallotSet(ListOf(m, v)) + {s.strategy}
  {
    var l := ListOf(m, v) + [s];
    if s.strategy !in BallotSet(ListOf(m, v)) {
      PutGet(m, v, l, v);
      PutDistinct(m, v, l);
      BallotSetSnoc(ListOf(m, v), s);
    }
  }

  lemma BallotSetSnoc(l: seq<StrategyRecord>, s: StrategyRecord)
    ensures BallotSet(l + [s]) == BallotSet(l) + {s.strategy}
  {
    assert forall x :: x in l + [s] <==> x in l || x == s;
  }

  lemma MergeAllSnoc(m: StrategyLists, evs: seq<(VoterId, StrategyRecord)>, e: (VoterId, StrategyRecord))
    ensures MergeAll(m, evs + [e]) == AddIfNew(MergeAll(m, evs), e.0, e.1)
  {
    assert (evs + [e])[..|evs|] == evs;
  }

  lemma {:induction false} MergeAllDistinct(m: StrategyLists, evs: seq<(VoterId, StrategyRecord)>)
    requires KeysDistinct(m)
    ensures KeysDistinct(MergeAll(m, evs))
    decreases |evs|
  {
    if evs != [] {
      var n := |evs| - 1;
      MergeAllDistinct(m, evs[..n]);
      var M := MergeAll(m, evs[..n]);
      PutDistinct(M, evs[n].0, ListOf(M, evs[n].0) + [evs[n].1]);
    }
  }

  lemma {:induction false} MergeAllNonEmpty(m: StrategyLists, evs: seq<(VoterId, StrategyRecord)>)
    requires AllNonEmpty(m)
    ensures AllNonEmpty(MergeAll(m, evs))
    decreases |evs|
  {
    if evs != [] {
      var n := |evs| - 1;
      MergeAllNonEmpty(m, evs[..n]);
      var M := MergeAll(m, evs[..n]);
      PutEntries(M, evs[n].0, ListOf(M, evs[n].0) + [evs[n].1]);
    }
  }

  /** A voter's merged list is its list in `m` extended by its strategies
      among the events, skipping repeated ballots. */
  lemma {:induction false} MergeAllList(m: StrategyLists, evs: seq<(VoterId, StrategyRecord)>, v: VoterId)
    requires KeysDistinct(m)
    ensures ListOf(MergeAll(m, evs), v) == DedupInto(ListOf(m, v), Proj(evs, v))
    decreases |evs|
  {
    if evs != [] {
      var n := |evs| - 1;
      var M, P := MergeAll(m, evs[..n]), Proj(evs[..n], v);
      MergeAllList(m, evs[..n], v);
      MergeAllDistinct(m, evs[..n]);
      assert MergeAll(m, evs) == AddIfNew(M, evs[n].0, evs[n].1);
      AddIfNewList(M, evs[n].0, evs[n].1, v);
      if evs[n].0 == v {
        assert Proj(evs, v) == P + [evs[n].1];
        DedupSnoc(ListOf(m, v), P, evs[n].1);
      } else {
        assert Proj(evs, v) == P;
      }
    }
  }

  /** One merge step changes only the list of its own voter. */
  lemma AddIfNewList(m: StrategyLists, k: VoterId, s: StrategyRecord, v: VoterId)
    requires KeysDistinct(m)
    ensures ListOf(AddIfNew(m, k, s), v) == if k == v then DedupStep(ListOf(m, v), s) else ListOf(m, v)
  {
    if s.strategy !in BallotSet(ListOf(m, k)) {
      PutGet(m, k, ListOf(m, k) + [s], v);
    }
  }

  lemma DedupSnoc(acc: seq<StrategyRecord>, l: seq<StrategyRecord>, s: StrategyRecord)
    ensures DedupInto(acc, l + [s]) == DedupStep(DedupInto(acc, l), s)
  {
    assert (l + [s])[..|l|] == l;
  }

  /** A voter is merged exactly when it has a strategy in one of the dicts. */
  lemma MergeKeys(ds: seq<StrategyLists>, v: VoterId)
    requires EachDistinct(ds)
    ensures v in Keys(MergeAll([], AllEvents(ds))) <==> Combined(ds, v) != []
  {
    MergeAllNonEmpty([], AllEvents(ds));
    MergeAllList([], AllEvents(ds), v);
    ProjAll(ds, v);
    DedupBallots([], Combined(ds, v));
  }

  lemma {:induction false} ProjAppend(a: seq<(VoterId, StrategyRecord)>, b: seq<(VoterId, StrategyRecord)>, v: VoterId)
    ensures Proj(a + b, v) == Proj(a, v) + Proj(b, v)
    decreases |b|
  {
    if b == [] {
      assert a + b == a;
    } else {
      assert (a + b)[..|a + b| - 1] == a + b[..|b| - 1];
      ProjAppend(a, b[..|b| - 1], v);
    }
  }

  lemma {:induction false} ProjVoter(k: VoterId, l: seq<StrategyRecord>, v: VoterId)
    ensures Proj(Tagged(k, l), v) == if k == v then l else []
    decreases |l|
  {
    if l != [] {
      var n := |l| - 1;
      assert Tagged(k, l)[..n] == Tagged(k, l[..n]);
      ProjVoter(k, l[..n], v);
      assert l == l[..n] + [l[n]];
    }
  }

  /** The events of a dict with distinct keys hold, for each voter, its
      list. */
  lemma {:induction false} ProjDict(d: StrategyLists, v: VoterId)
    requires KeysDistinct(d)
    ensures Proj(DictEvents(d), v) == ListOf(d, v)
    decreases |d|
  {
    if d != [] {
      var n := |d| - 1;
      LastKeyFresh(d);
      ProjDict(d[..n], v);
      ProjAppend(DictEvents(d[..n]), Tagged(d[n].0, d[n].1), v);
      ProjVoter(d[n].0, d[n].1, v);
      assert d[n] in d;
      if d[n].0 == v {
        GetUnique(d, v, d[n].1);
      } else if v in Keys(d[..n]) {
        var x := Get(d[..n], v).value;
        GetUnique(d, v, x);
      } else {
        KeysSnoc(d);
      }
    }
  }

  lemma {:induction false} ProjAll(ds: seq<StrategyLists>, v: VoterId)
    requires EachDistinct(ds)
    ensures Proj(AllEvents(ds), v) == Combined(ds, v)
    decreases |ds|
  {
    if ds != [] {
      var n := |ds| - 1;
      ProjAll(ds[..n], v);
      ProjAppend(AllEvents(ds[..n]), DictEvents(ds[n]), v);
      ProjDict(ds[n], v);
    }
  }

  /** A voter with a strategy is a key of one of the dicts. */
  lemma {:induction false} CombinedKeys(ds: seq<StrategyLists>, v: VoterId)
    requires Combined(ds, v) != []
    ensures v in KeysUnion(ds)
    decreases |ds|
  {
    var n := |ds| - 1;
    if ListOf(ds[n], v) == [] {
      CombinedKeys(ds[..n], v);
    }
  }

  lemma {:induction false} NonEmptyIdentity(m: StrategyLists)
    requires AllNonEmpty(m)
    ensures NonEmptyEntries(m) == m
    decreases |m|
  {
    if m != [] {
      assert m[0] in m;
      NonEmptyIdentity(m[1..]);
    }
  }

  /** A dict with distinct keys has as many keys as entries. */
  lemma {:induction false} KeysCard<K, V>(d: Dict<K, V>)
    requires KeysDistinct(d)
    ensures |Keys(d)| == |d|
    decreases |d|
  {
    if d != [] {
      LastKeyFresh(d);
      KeysCard(d[..|d| - 1]);
      KeysSnoc(d);
    }
  }

  /** The ballots after deduplication are those of both lists. */
  lemma {:induction false} DedupBallots(acc: seq<StrategyRecord>, l: seq<StrategyRecord>)
    ensures BallotSet(DedupInto(acc, l)) == BallotSet(acc) + BallotSet(l)
    decreases |l|
  {
    if l != [] {
      var n := |l| - 1;
      DedupBallots(acc, l[..n]);
      var p := DedupInto(acc, l[..n]);
      assert l == l[..n] + [l[n]];
      assert BallotSet(l) == BallotSet(l[..n]) + {l[n].strategy};
      assert BallotSet(p + [l[n]]) == BallotSet(p) + {l[n].strategy};
    }
  }

  /** Deduplication never repeats a ballot. */
  lemma {:induction false} DedupDistinct(acc: seq<StrategyRecord>, l: seq<StrategyRecord>)
    requires BallotsDistinct(acc)
    ensures BallotsDistinct(DedupInto(acc, l))
    decreases |l|
  {
    if l != [] {
      var n := |l| - 1;
      DedupDistinct(acc, l[..n]);
      var p := DedupInto(acc, l[..n]);
      if l[n].strategy !in BallotSet(p) {
        var r := p + [l[n]];
        forall i, j | 0 <= i < j < |r|
          ensures r[i].strategy != r[j].strategy
        {
          if j == |p| {
            assert r[i] in p;
          }
        }
      }
    }
  }

  /** Each kept strategy is the first one in `l` with its ballot. */
  lemma {:induction false} DedupFirst(l: seq<StrategyRecord>)
    ensures forall s :: s in Dedup(l) ==> FirstOccurrence(l, s)
    decreases |l|
  {
    if l != [] {
      var n := |l| - 1;
      DedupFirst(l[..n]);
      var p := Dedup(l[..n]);
      forall s | s in p
        ensures FirstOccurrence(l, s)
      {
        var i :| 0 <= i < n && l[..n][i] == s && s.strategy !in BallotSet(l[..n][..i]);
        assert l[..n][..i] == l[..i];
      }
      if l[n].strategy !in BallotSet(p) {
        DedupBallots([], l[..n]);
        assert l[..n] == l[..n];
      }
    }
  }

  // ---------------------------------------------------------------------
  // form_voter_pairs

  /** A coalition candidate: the aim (a group key) and a tuple of voters. */
  /** The voter groups, keyed by the candidate the group aims at. */
  type Groups = Dict<Candidate, seq<VoterId>>

  /** `voter_groups[k].append(v)` on a `defaultdict(list)`: a missing key
      starts an empty list. */
  function Append(g: Groups, k: Candidate, v: VoterId): Groups
  {
    Put(g, k, ListOf(g, k) + [v])
  }

  /** Appending grows exactly the list under `k`, by `v`. */
  lemma AppendList(g: Groups, k: Candidate, v: VoterId, k': Candidate)
    requires KeysDistinct(g)
    ensures KeysDistinct(Append(g, k, v))
    ensures ListOf(Append(g, k, v), k') == if k' == k then ListOf(g, k) + [v] else ListOf(g, k')
  {
    PutDistinct(g, k, ListOf(g, k) + [v]);
    PutGet(g, k, ListOf(g, k) + [v], k');
  }

  /** Every entry after an append is an old entry or the grown list. */
  lemma AppendEntries(g: Groups, k: Candidate, v: VoterId)
    ensures forall p :: p in Append(g, k, v) ==> p in g || p == (k, ListOf(g, k) + [v])
  {
    PutEntries(g, k, ListOf(g, k) + [v]);
  }

  type Coalition = (Candidate, seq<VoterId>)

  /** The combinations of the sizes in `range(2, hi)`, smallest size first. */
  function SizesBelow(key: Candidate, voters: seq<VoterId>, hi: int): seq<Coalition>
    decreases hi
  {
    if hi <= 2 then [] else SizesBelow(key, voters, hi - 1) + Tagged(key, Combinations(voters, hi - 1))
  }

  /** The coalitions of one group: none for fewer than two voters, else
      the combinations of sizes 2..min(max_size, group size). */
  function GroupCoalitions(key: Candidate, voters: seq<VoterId>, maxSize: int): seq<Coalition>
  {
    if |voters| < 2 then [] else SizesBelow(key, voters, Min(maxSize + 1, |voters| + 1))
  }

  function Min(a: int, b: int): int
  {
    if a <= b then a else b
  }

  /** The coalitions of all groups, group by group. */
  function Pairs(groups: Dict<Candidate, seq<VoterId>>, maxSize: int): seq<Coalition>
  {
    if groups == [] then []
    else Pairs(groups[..|groups| - 1], maxSize) + GroupCoalitions(groups[|groups| - 1].0, groups[|groups| - 1].1, maxSize)
  }

  /** form_voter_pairs. */
  method FormVoterPairs(groups: Dict<Candidate, seq<VoterId>>, maxSize: int) returns (coalitions: seq<Coalition>)
    ensures coalitions == Pairs(groups, maxSize)
  {
    coalitions := [];
    for g := 0 to |groups|
      invariant coalitions == Pairs(groups[..g], maxSize)
    {
      var (key, voters) := groups[g];
      assert groups[..g + 1][..g] == groups[..g];
      if |voters| < 2 {
        continue;
      }
      coalitions := AppendSizes(coalitions, key, voters, Min(maxSize + 1, |voters| + 1));
    }
    assert groups[..|groups|] == groups;
  }

  /** `for size in range(2, hi): for coalition in combinations(voters, size): ...`. */
  method AppendSizes(coalitions: seq<Coalition>, key: Candidate, voters: seq<VoterId>, hi: int) returns (r: seq<Coalition>)
    ensures r == coalitions + SizesBelow(key, voters, hi)
  {
    r := coalitions;
    if hi <= 2 {
      return;
    }
    for size := 2 to hi
      invariant r == coalitions + SizesBelow(key, voters, size)
    {
      var cs := Combinations(voters, size);
      assert SizesBelow(key, voters, size + 1) == SizesBelow(key, voters, size) + Tagged(key, cs);
      r := AppendTagged(r, key, cs);
    }
  }

  /** `for coalition in cs: coalitions.append((key, coalition))`. */
  method AppendTagged(coalitions: seq<Coalition>, key: Candidate, cs: seq<seq<VoterId>>) returns (r: seq<Coalition>)
    ensures r == coalitions + Tagged(key, cs)
  {
    r := coalitions;
    for i := 0 to |cs|
      invariant r == coalitions + Tagged(key, cs[..i])
    {
      assert Tagged(key, cs[..i + 1]) == Tagged(key, cs[..i]) + [(key, cs[i])];
      r := r + [(key, cs[i])];
    }
    assert cs[..|cs|] == cs;
  }

  /** Some group has key `k` and `c` among its combinations of a size
      between 2 and `maxSize`. */
  predicate FromSomeGroup(groups: Dict<Candidate, seq<VoterId>>, maxSize: int, k: Candidate, c: seq<VoterId>)
  {
    exists g :: 0 <= g < |groups| && FromGroup(groups[g], maxSize, k, c)
  }

  predicate FromGroup(group: (Candidate, seq<VoterId>), maxSize: int, k: Candidate, c: seq<VoterId>)
  {
    group.0 == k && 2 <= |c| <= maxSize && c in Combinations(group.1, |c|)
  }

  /** The coalitions are exactly the combinations of 2 up to `maxSize`
      voters of a group, tagged with that group's key. */
  lemma {:induction false} PairsMeaning(groups: Dict<Candidate, seq<VoterId>>, maxSize: int, k: Candidate, c: seq<VoterId>)
    ensures (k, c) in Pairs(groups, maxSize) <==> FromSomeGroup(groups, maxSize, k, c)
    decreases |groups|
  {
    if groups != [] {
      var n := |groups| - 1;
      PairsMeaning(groups[..n], maxSize, k, c);
      GroupMeaning(groups[n].0, groups[n].1, maxSize, k, c);
      FromSomeGroupStep(groups, maxSize, k, c);
    }
  }

  lemma FromSomeGroupStep(groups: Dict<Candidate, seq<VoterId>>, maxSize: int, k: Candidate, c: seq<VoterId>)
    requires groups != []
    ensures FromSomeGroup(groups, maxSize, k, c) <==>
            FromSomeGroup(groups[..|groups| - 1], maxSize, k, c) || FromGroup(groups[|groups| - 1], maxSize, k, c)
  {
    var n := |groups| - 1;
    if FromSomeGroup(groups, maxSize, k, c) {
      var g :| 0 <= g < |groups| && FromGroup(groups[g], maxSize, k, c);
      if g < n {
        assert groups[..n][g] == groups[g];
      }
    }
    if FromSomeGroup(groups[..n], maxSize, k, c) {
      var g :| 0 <= g < n && FromGroup(groups[..n][g], maxSize, k, c);
      assert groups[..n][g] == groups[g];
    }
  }

  lemma GroupMeaning(key: Candidate, voters: seq<VoterId>, maxSize: int, k: Candidate, c: seq<VoterId>)
    ensures (k, c) in GroupCoalitions(key, voters, maxSize) <==> FromGroup((key, voters), maxSize, k, c)
  {
    SizesMeaning(key, voters, Min(maxSize + 1, |voters| + 1), k, c);
    if c in Combinations(voters, |c|) && |c| >= 1 {
      CombinationsFit(voters, |c|);
    }
  }

  /** A combination never has more entries than the list it is drawn from. */
  lemma CombinationsFit<T>(s: seq<T>, k: nat)
    requires k >= 1 && Combinations(s, k) != []
    ensures k <= |s|
  {
  }

  lemma {:induction false} SizesMeaning(key: Candidate, voters: seq<VoterId>, hi: int, k: Candidate, c: seq<VoterId>)
    ensures (k, c) in SizesBelow(key, voters, hi) <==> k == key && 2 <= |c| < hi && c in Combinations(voters, |c|)
    decreases hi
  {
    if hi > 2 {
      SizesMeaning(key, voters, hi - 1, k, c);
      var cs := Combinations(voters, hi - 1);
      var before, tagged := SizesBelow(key, voters, hi - 1), Tagged(key, cs);
      assert SizesBelow(key, voters, hi) == before + tagged;
      assert (k, c) in tagged <==> k == key && c in cs by {
        if (k, c) in tagged {
          var i :| 0 <= i < |cs| && tagged[i] == (k, c);
        }
        if k == key && c in cs {
          var i :| 0 <= i < |cs| && cs[i] == c;
          assert tagged[i] == (k, c);
        }
      }
    }
  }

  // ---------------------------------------------------------------------
  // select_best_strategy

  /** The test of a strategy: its ballot ranks the aim first and holds the
      honest winner at or after position `len // 2`. */
  predicate Aimed(st: StrategyRecord, winner: Candidate, aim: Candidate)
  {
    st.strategy != [] && st.strategy[0] == aim && winner in st.strategy[|st.strategy| / 2..]
  }

  /** The test reaches strategy `j` and indexes its empty ballot. */
  predicate RaisesAt(l: seq<StrategyRecord>, winner: Candidate, aim: Candidate, j: int)
  {
    0 <= j < |l| && l[j].strategy == [] &&
    forall k :: 0 <= k < j ==> l[k].strategy != [] && !Aimed(l[k], winner, aim)
  }

  /** The scan of one voter's strategies that stops at the first one
      passing the test: its position, if any. */
  function FirstAimed(l: seq<StrategyRecord>, winner: Candidate, aim: Candidate): (r: Result<Option<nat>>)
    ensures r.Ok? && r.value.Some? ==> r.value.value < |l| && Aimed(l[r.value.value], winner, aim)
    ensures r.Ok? ==> forall k :: 0 <= k < (if r.value.Some? then r.value.value else |l|) ==>
                        l[k].strategy != [] && !Aimed(l[k], winner, aim)
    ensures r.Err? ==> r == Err(IndexError)
    decreases |l|
  {
    if l == [] then Ok(None)
    else if l[0].strategy == [] then Err(IndexError)
    else if Aimed(l[0], winner, aim) then Ok(Some(0))
    else match FirstAimed(l[1..], winner, aim)
      case Err(e) => Err(e)
      case Ok(None) => Ok(None)
      case Ok(Some(i)) => Ok(Some(i + 1))
  }

  /** The strategy the scan picks. */
  function Pick(l: seq<StrategyRecord>, winner: Candidate, aim: Candidate): Result<Option<StrategyRecord>>
  {
    match FirstAimed(l, winner, aim)
      case Err(e) => Err(e)
      case Ok(None) => Ok(None)
      case Ok(Some(i)) => Ok(Some(l[i]))
  }

  /** One voter of the selection: skipped when it has no strategy list,
      else its picked strategy, if any, is recorded. */
  function SelectStep(sel: Dict<VoterId, StrategyRecord>, v: VoterId, strategies: StrategyLists,
                      winner: Candidate, aim: Candidate): Result<Dict<VoterId, StrategyRecord>>
  {
    if v !in Keys(strategies) then Ok(sel)
    else match Pick(ListOf(strategies, v), winner, aim)
      case Err(e) => Err(e)
      case Ok(None) => Ok(sel)
      case Ok(Some(st)) => Ok(Put(sel, v, st))
  }

  /** The selection over the coalition's voters, in order. */
  function Selection(voters: seq<VoterId>, strategies: StrategyLists, winner: Candidate, aim: Candidate)
    : Result<Dict<VoterId, StrategyRecord>>
  {
    if voters == [] then Ok([])
    else match Selection(voters[..|voters| - 1], strategies, winner, aim)
      case Err(e) => Err(e)
      case Ok(sel) => SelectStep(sel, voters[|voters| - 1], strategies, winner, aim)
  }

  /** select_best_strategy, for a winner already read. */
  method SelectBestStrategy(voters: seq<VoterId>, strategies: StrategyLists, winner: Candidate, aim: Candidate)
    returns (r: Result<Dict<VoterId, StrategyRecord>>)
    ensures r == Selection(voters, strategies, winner, aim)
  {
    var selected: Dict<VoterId, StrategyRecord> := [];
    for i := 0 to |voters|
      invariant Selection(voters[..i], strategies, winner, aim) == Ok(selected)
    {
      var voter := voters[i];
      assert voters[..i + 1][..i] == voters[..i];
      if voter !in Keys(strategies) {
        continue;
      }
      var picked := ScanStrategies(ListOf(strategies, voter), winner, aim);
      if picked.Err? {
        SelectionFailsAt(voters, strategies, winner, aim, i + 1);
        return Err(picked.raised);
      }
      if picked.value.Some? {
        selected := Put(selected, voter, picked.value.value);
      }
    }
    assert voters[..|voters|] == voters;
    return Ok(selected);
  }

  /** `for strategy in strategies[voter]: if ...: ...; break`. */
  method ScanStrategies(l: seq<StrategyRecord>, winner: Candidate, aim: Candidate)
    returns (r: Result<Option<StrategyRecord>>)
    ensures r == Pick(l, winner, aim)
  {
    for k := 0 to |l|
      invariant forall j :: 0 <= j < k ==> l[j].strategy != [] && !Aimed(l[j], winner, aim)
    {
      var strategy := l[k];
      if strategy.strategy == [] {
        PickAtEmpty(l, winner, aim, k);
        return Err(IndexError);
      }
      if strategy.strategy[0] == aim && winner in strategy.strategy[|strategy.strategy| / 2..] {
        PickAtAimed(l, winner, aim, k);
        return Ok(Some(strategy));
      }
    }
    PickNone(l, winner, aim);
    return Ok(None);
  }

  /** A raise ends the selection. */
  lemma {:induction false} SelectionFailsAt(voters: seq<VoterId>, strategies: StrategyLists, winner: Candidate,
                                            aim: Candidate, k: nat)
    requires k <= |voters| && Selection(voters[..k], strategies, winner, aim).Err?
    ensures Selection(voters, strategies, winner, aim) == Selection(voters[..k], strategies, winner, aim)
    decreases |voters|
  {
    if k < |voters| {
      var n := |voters| - 1;
      assert voters[..n][..k] == voters[..k];
      SelectionFailsAt(voters[..n], strategies, winner, aim, k);
    } else {
      assert voters[..k] == voters;
    }
  }

  /** The scan stops with IndexError at an empty strategy that no
      earlier aimed strategy precedes. */
  lemma PickAtEmpty(l: seq<StrategyRecord>, winner: Candidate, aim: Candidate, k: nat)
    requires k < |l| && l[k].strategy == []
    requires forall j :: 0 <= j < k ==> l[j].strategy != [] && !Aimed(l[j], winner, aim)
    ensures Pick(l, winner, aim) == Err(IndexError)
  {
  }

  /** The scan stops at the first aimed strategy. */
  lemma PickAtAimed(l: seq<StrategyRecord>, winner: Candidate, aim: Candidate, k: nat)
    requires k < |l| && Aimed(l[k], winner, aim)
    requires forall j :: 0 <= j < k ==> l[j].strategy != [] && !Aimed(l[j], winner, aim)
    ensures Pick(l, winner, aim) == Ok(Some(l[k]))
  {
    FirstAimedRaises(l, winner, aim);
  }

  /** A scan that meets neither an empty nor an aimed strategy finds none. */
  lemma PickNone(l: seq<StrategyRecord>, winner: Candidate, aim: Candidate)
    requires forall j :: 0 <= j < |l| ==> l[j].strategy != [] && !Aimed(l[j], winner, aim)
    ensures Pick(l, winner, aim) == Ok(None)
  {
    FirstAimedRaises(l, winner, aim);
  }

  /** The scan raises exactly when it reaches an empty ballot. */
  lemma {:induction false} FirstAimedRaises(l: seq<StrategyRecord>, winner: Candidate, aim: Candidate)
    ensures FirstAimed(l, winner, aim).Err? <==> exists j :: RaisesAt(l, winner, aim, j)
    decreases |l|
  {
    if l != [] {
      if l[0].strategy == [] {
        assert RaisesAt(l, winner, aim, 0);
      } else if Aimed(l[0], winner, aim) {
        forall j | 0 <= j < |l|
          ensures !RaisesAt(l, winner, aim, j)
        {
          if j > 0 {
            assert !(l[0].strategy != [] && !Aimed(l[0], winner, aim));
          }
        }
      } else {
        FirstAimedRaises(l[1..], winner, aim);
        if FirstAimed(l[1..], winner, aim).Err? {
          var j :| RaisesAt(l[1..], winner, aim, j);
          assert RaisesAt(l, winner, aim, j + 1);
        } else {
          forall j | RaisesAt(l, winner, aim, j)
            ensures false
          {
            assert RaisesAt(l[1..], winner, aim, j - 1);
          }
        }
      }
    }
  }

  /** The voter has a strategy list and the scan picks one of its
      strategies. */
  predicate Chosen(strategies: StrategyLists, v: VoterId, winner: Candidate, aim: Candidate)
  {
    v in Keys(strategies) && Pick(ListOf(strategies, v), winner, aim).Ok? &&
    Pick(ListOf(strategies, v), winner, aim).value.Some?
  }

  /** A successful selection holds exactly the coalition's voters for
      which the scan picks a strategy, each with the picked one. */
  lemma {:induction false} SelectionMeaning(voters: seq<VoterId>, strategies: StrategyLists, winner: Candidate,
                                            aim: Candidate, sel: Dict<VoterId, StrategyRecord>)
    requires Selection(voters, strategies, winner, aim) == Ok(sel)
    ensures KeysDistinct(sel)
    ensures forall v :: v in Keys(sel) <==> v in voters && Chosen(strategies, v, winner, aim)
    ensures forall p :: p in sel ==> Pick(ListOf(strategies, p.0), winner, aim) == Ok(Some(p.1))
    decreases |voters|
  {
    if voters != [] {
      var n := |voters| - 1;
      var v := voters[n];
      var sel' := Selection(voters[..n], strategies, winner, aim).value;
      SelectionMeaning(voters[..n], strategies, winner, aim, sel');
      assert voters == voters[..n] + [v];
      if v in Keys(strategies) && Pick(ListOf(strategies, v), winner, aim).value.Some? {
        var st := Pick(ListOf(strategies, v), winner, aim).value.value;
        PutDistinct(sel', v, st);
        PutEntries(sel', v, st);
      }
    }
  }

  /** `tuple(voter for voter in voters if voter in best)`. */
  function Members(voters: seq<VoterId>, best: Dict<VoterId, StrategyRecord>): (r: seq<VoterId>)
    ensures |r| <= |voters|
    ensures forall v :: v in r <==> v in voters && v in Keys(best)
  {
    if voters == [] then []
    else
      var init := voters[..|voters| - 1];
      assert voters == init + [voters[|voters| - 1]];
      Members(init, best) + (if voters[|voters| - 1] in Keys(best) then [voters[|voters| - 1]] else [])
  }

  method FilterMembers(voters: seq<VoterId>, best: Dict<VoterId, StrategyRecord>) returns (r: seq<VoterId>)
    ensures r == Members(voters, best)
  {
    r := [];
    for i := 0 to |voters|
      invariant r == Members(voters[..i], best)
    {
      assert voters[..i + 1][..i] == voters[..i];
      if voters[i] in Keys(best) {
        r := r + [voters[i]];
      }
    }
    assert voters[..|voters|] == voters;
  }

  // ---------------------------------------------------------------------
  // sorted(coalitions, key=lambda x: -len(x[1]))

  /** `x` put before the first coalition that is not larger. */
  function InsertBySize(x: Coalition, s: seq<Coalition>): seq<Coalition>
  {
    if s == [] || |s[0].1| <= |x.1| then [x] + s else [s[0]] + InsertBySize(x, s[1..])
  }

  /** Python's stable sort on descending coalition size. */
  function SortBySize(cs: seq<Coalition>): seq<Coalition>
  {
    if cs == [] then [] else InsertBySize(cs[0], SortBySize(cs[1..]))
  }

  predicate LargestFirst(s: seq<Coalition>)
  {
    forall i, j :: 0 <= i < j < |s| ==> |s[i].1| >= |s[j].1|
  }

  /** The coalitions of `n` voters, in order. */
  function OfSize(s: seq<Coalition>, n: nat): seq<Coalition>
  {
    if s == [] then [] else (if |s[0].1| == n then [s[0]] else []) + OfSize(s[1..], n)
  }

  /** The sort puts larger coalitions first. */
  lemma {:induction false} SortLargestFirst(cs: seq<Coalition>)
    ensures LargestFirst(SortBySize(cs))
    decreases |cs|
  {
    if cs != [] {
      SortLargestFirst(cs[1..]);
      InsertLargestFirst(cs[0], SortBySize(cs[1..]));
    }
  }

  /** The sort only reorders. */
  lemma {:induction false} SortPermutes(cs: seq<Coalition>)
    ensures multiset(SortBySize(cs)) == multiset(cs)
    decreases |cs|
  {
    if cs != [] {
      SortPermutes(cs[1..]);
      InsertCount(cs[0], SortBySize(cs[1..]));
      assert cs == [cs[0]] + cs[1..];
    }
  }

  /** Coalitions of equal size keep their order. */
  lemma {:induction false} SortStable(cs: seq<Coalition>, n: nat)
    ensures OfSize(SortBySize(cs), n) == OfSize(cs, n)
    decreases |cs|
  {
    if cs != [] {
      SortStable(cs[1..], n);
      InsertOfSize(cs[0], SortBySize(cs[1..]), n);
    }
  }

  lemma {:induction false} InsertCount(x: Coalition, s: seq<Coalition>)
    ensures multiset(InsertBySize(x, s)) == multiset(s) + multiset{x}
    decreases |s|
  {
    if s != [] && |s[0].1| > |x.1| {
      InsertCount(x, s[1..]);
      assert s == [s[0]] + s[1..];
    }
  }

  lemma {:induction false} InsertLargestFirst(x: Coalition, s: seq<Coalition>)
    requires LargestFirst(s)
    ensures LargestFirst(InsertBySize(x, s))
    decreases |s|
  {
    if s == [] || |s[0].1| <= |x.1| {
      ConsLargestFirst(x, s);
    } else {
      var t := s[1..];
      assert LargestFirst(t) by {
        forall a, b | 0 <= a < b < |t|
          ensures |t[a].1| >= |t[b].1|
        {
          assert t[a] == s[a + 1] && t[b] == s[b + 1];
        }
      }
      InsertLargestFirst(x, t);
      var r := InsertBySize(x, t);
      assert r[0] == if t == [] || |t[0].1| <= |x.1| then x else t[0];
      if t != [] {
        assert t[0] == s[1];
      }
      ConsLargestFirst(s[0], r);
    }
  }

  /** A coalition at least as large as the first of a sorted list can go in front. */
  lemma ConsLargestFirst(y: Coalition, t: seq<Coalition>)
    requires LargestFirst(t) && (t == [] || |y.1| >= |t[0].1|)
    ensures LargestFirst([y] + t)
  {
    var r := [y] + t;
    forall a, b | 0 <= a < b < |r|
      ensures |r[a].1| >= |r[b].1|
    {
      assert r[b] == t[b - 1];
      if a > 0 {
        assert r[a] == t[a - 1];
      } else if b > 1 {
        assert |t[0].1| >= |t[b - 1].1|;
      }
    }
  }

  lemma {:induction false} InsertOfSize(x: Coalition, s: seq<Coalition>, n: nat)
    ensures OfSize(InsertBySize(x, s), n) == (if |x.1| == n then [x] else []) + OfSize(s, n)
    decreases |s|
  {
    if s == [] || |s[0].1| <= |x.1| {
      OfSizeCons(x, s, n);
    } else {
      var r := InsertBySize(x, s[1..]);
      InsertOfSize(x, s[1..], n);
      OfSizeCons(s[0], r, n);
      if |x.1| == n {
        assert OfSize(s, n) == OfSize(s[1..], n);
      } else {
        assert OfSize(r, n) == OfSize(s[1..], n);
      }
    }
  }

  lemma OfSizeCons(y: Coalition, t: seq<Coalition>, n: nat)
    ensures OfSize([y] + t, n) == (if |y.1| == n then [y] else []) + OfSize(t, n)
  {
    assert ([y] + t)[1..] == t;
  }

  // ---------------------------------------------------------------------
  // The search loop of collude

  /** What a found coalition reports (`coalition_info`). */
  datatype CoalitionInfo = CoalitionInfo(
    coalition: seq<VoterId>,
    originalWinner: Candidate,
    simulatedWinner: Candidate,
    /** The sum of the colluders' gains. */
    colluderGain: real,
    newTotal: real,
    /** The change in total happiness, where the analyser reports it. */
    totalGain: Option<real>,
    originalHappiness: Dict<VoterId, real>,
    strategicHappiness: Dict<VoterId, real>,
    happinessGain: Dict<VoterId, real>,
    actions: Dict<VoterId, Ballot>)

  /** What the search works with besides the coalitions: the merged
      strategies, the honest winner, the sincere ballots, how a strategic
      profile is scored (happiness measured on the sincere ballots, and
      the new winner), and the honest total happiness where the report
      includes the change in it. */
  datatype Context = Context(
    strategies: StrategyLists,
    winner: Candidate,
    sincere: seq<Ballot>,
    evaluate: seq<Ballot> -> Result<(Happy, Candidate)>,
    originalTotal: Option<real>)

  /** `strategies[voter][0]['original_individual_happiness']`. Every
      voter the search asks about has a non-empty list (lemma
      SelectedHaveStrategies), so the default is never read. */
  function FirstOriginal(strategies: StrategyLists, v: VoterId): real
  {
    if ListOf(strategies, v) != [] then ListOf(strategies, v)[0].originalIndividual else 0.0
  }

  /** `best_strategies[voter]['strategy']`; only members of the selection
      are asked about, so the default is never read. */
  function SelectedBallot(best: Dict<VoterId, StrategyRecord>, v: VoterId): Ballot
  {
    match Get(best, v)
      case None => []
      case Some(st) => st.strategy
  }

  /** The members' ballots replaced by their selected strategies, in a
      copy of `ballots`; IndexError for a voter id past the last ballot. */
  function Overwrite(ballots: seq<Ballot>, members: seq<VoterId>, best: Dict<VoterId, StrategyRecord>)
    : Result<seq<Ballot>>
  {
    if members == [] then Ok(ballots)
    else match Overwrite(ballots, members[..|members| - 1], best)
      case Err(e) => Err(e)
      case Ok(b) =>
        var v := members[|members| - 1];
        if v < |b| then Ok(b[v := SelectedBallot(best, v)]) else Err(IndexError)
  }

  /** A member's gain: `temp_individual_h.get(voter, 0)` minus its
      original happiness. */
  function Gain(strategies: StrategyLists, ind: map<VoterId, real>, v: VoterId): real
  {
    GetOrZero(ind, v) - FirstOriginal(strategies, v)
  }

  function Gains(strategies: StrategyLists, ind: map<VoterId, real>, members: seq<VoterId>): (r: seq<real>)
    ensures |r| == |members| && forall i :: 0 <= i < |members| ==> r[i] == Gain(strategies, ind, members[i])
  {
    seq(|members|, i requires 0 <= i < |members| => Gain(strategies, ind, members[i]))
  }

  /** `happiness_valid`: some member strictly better off, none worse off. */
  predicate HappinessValid(strategies: StrategyLists, ind: map<VoterId, real>, members: seq<VoterId>)
  {
    (exists i :: 0 <= i < |members| && GetOrZero(ind, members[i]) > FirstOriginal(strategies, members[i])) &&
    (forall i :: 0 <= i < |members| ==> GetOrZero(ind, members[i]) >= FirstOriginal(strategies, members[i]))
  }

  /** `{voter: f(voter) for voter in voters}`. */
  function VoterDict<V(==)>(voters: seq<VoterId>, f: VoterId -> V): Dict<VoterId, V>
  {
    if voters == [] then []
    else Put(VoterDict(voters[..|voters| - 1], f), voters[|voters| - 1], f(voters[|voters| - 1]))
  }

  /** `temp_total_h - original_total_happiness`, where the analyser
      reports it. */
  function TotalGain(originalTotal: Option<real>, newTotal: real): (r: Option<real>)
    ensures r.Some? <==> originalTotal.Some?
    ensures r.Some? ==> r.value + originalTotal.value == newTotal
  {
    match originalTotal
      case None => None
      case Some(t) => Some(newTotal - t)
  }

  /** The report of a scored coalition. */
  function Report(ctx: Context, members: seq<VoterId>, strategic: seq<Ballot>, happy: Happy, newWinner: Candidate)
    : CoalitionInfo
  {
    var ind := happy.individual;
    CoalitionInfo(
      members, ctx.winner, newWinner,
      SumReal(Gains(ctx.strategies, ind, members)), happy.total,
      TotalGain(ctx.originalTotal, happy.total),
      VoterDict(members, v => FirstOriginal(ctx.strategies, v)),
      VoterDict(members, v => GetOrZero(ind, v)),
      VoterDict(members, v => Gain(ctx.strategies, ind, v)),
      VoterDict(members, (v: VoterId) => if v < |strategic| then strategic[v] else []))
  }

  /** The scoring of a coalition with more than one member: its validity
      and its report. */
  function Outcome(ctx: Context, members: seq<VoterId>, best: Dict<VoterId, StrategyRecord>)
    : Result<(bool, CoalitionInfo)>
  {
    match Overwrite(ctx.sincere, members, best)
      case Err(e) => Err(e)
      case Ok(strategic) =>
        match ctx.evaluate(strategic)
          case Err(e) => Err(e)
          case Ok(scored) =>
            Ok((HappinessValid(ctx.strategies, scored.0.individual, members),
                Report(ctx, members, strategic, scored.0, scored.1)))
  }

  /** The selection of one coalition. */
  function SelectFor(ctx: Context, c: Coalition): Result<Dict<VoterId, StrategyRecord>>
  {
    Selection(c.1, ctx.strategies, ctx.winner, c.0)
  }

  /** The loop of collude over the sorted coalitions, with the set of
      member tuples already processed: the first valid report. */
  function Search(ctx: Context, cs: seq<Coalition>, processed: set<seq<VoterId>>): Result<Option<CoalitionInfo>>
    decreases |cs|
  {
    if cs == [] then Ok(None)
    else match SelectFor(ctx, cs[0])
      case Err(e) => Err(e)
      case Ok(best) =>
        var members := Members(cs[0].1, best);
        if members == [] || members in processed then Search(ctx, cs[1..], processed)
        else if |members| <= 1 then Search(ctx, cs[1..], processed + {members})
        else match Outcome(ctx, members, best)
          case Err(e) => Err(e)
          case Ok(scored) =>
            if scored.0 then Ok(Some(scored.1)) else Search(ctx, cs[1..], processed + {members})
  }

  /** The loop of collude. */
  method SearchCoalitions(ctx: Context, coalitions: seq<Coalition>) returns (r: Result<Option<CoalitionInfo>>)
    ensures r == Search(ctx, coalitions, {})
  {
    var processed: set<seq<VoterId>> := {};
    for i := 0 to |coalitions|
      invariant Search(ctx, coalitions, {}) == Search(ctx, coalitions[i..], processed)
    {
      var (aim, voters) := coalitions[i];
      assert coalitions[i..][1..] == coalitions[i + 1..];
      var best := SelectBestStrategy(voters, ctx.strategies, ctx.winner, aim);
      if best.Err? {
        return Err(best.raised);
      }
      var members := FilterMembers(voters, best.value);
      if members == [] || members in processed {
        continue;
      }
      processed := processed + {members};
      if |members| > 1 {
        var strategic := OverwriteBallots(ctx.sincere, members, best.value);
        if strategic.Err? {
          return Err(strategic.raised);
        }
        var scored := ctx.evaluate(strategic.value);
        if scored.Err? {
          return Err(scored.raised);
        }
        var (happy, newWinner) := scored.value;
        if HappinessValid(ctx.strategies, happy.individual, members) {
          return Ok(Some(Report(ctx, members, strategic.value, happy, newWinner)));
        }
      }
    }
    return Ok(None);
  }

  /** The member loop that writes the selected ballots into the copy. */
  method OverwriteBallots(ballots: seq<Ballot>, members: seq<VoterId>, best: Dict<VoterId, StrategyRecord>)
    returns (r: Result<seq<Ballot>>)
    ensures r == Overwrite(ballots, members, best)
  {
    var temp := ballots;
    for i := 0 to |members|
      invariant Overwrite(ballots, members[..i], best) == Ok(temp)
    {
      var voter := members[i];
      assert members[..i + 1][..i] == members[..i];
      if voter >= |temp| {
        OverwriteFailsAt(ballots, members, best, i + 1);
        return Err(IndexError);
      }
      temp := temp[voter := SelectedBallot(best, voter)];
    }
    assert members[..|members|] == members;
    return Ok(temp);
  }

  lemma {:induction false} OverwriteFailsAt(ballots: seq<Ballot>, members: seq<VoterId>,
                                            best: Dict<VoterId, StrategyRecord>, k: nat)
    requires k <= |members| && Overwrite(ballots, members[..k], best).Err?
    ensures Overwrite(ballots, members, best) == Overwrite(ballots, members[..k], best)
    decreases |members|
  {
    if k < |members| {
      var n := |members| - 1;
      assert members[..n][..k] == members[..k];
      OverwriteFailsAt(ballots, members[..n], best, k);
    } else {
      assert members[..k] == members;
    }
  }

  // ---------------------------------------------------------------------
  // Properties of the search.

  /** The copy differs from the sincere ballots exactly at the members,
      who cast their selected strategies. */
  lemma {:induction false} OverwriteMeaning(ballots: seq<Ballot>, members: seq<VoterId>, best: Dict<VoterId, StrategyRecord>)
    requires Overwrite(ballots, members, best).Ok?
    ensures var r := Overwrite(ballots, members, best).value;
            |r| == |ballots| &&
            forall i :: 0 <= i < |r| ==> r[i] == if i in members then SelectedBallot(best, i) else ballots[i]
    decreases |members|
  {
    if members != [] {
      var n := |members| - 1;
      OverwriteMeaning(ballots, members[..n], best);
      assert members == members[..n] + [members[n]];
    }
  }

  /** The copy raises exactly when a member's id is past the last ballot. */
  lemma {:induction false} OverwriteFails(ballots: seq<Ballot>, members: seq<VoterId>, best: Dict<VoterId, StrategyRecord>)
    ensures Overwrite(ballots, members, best).Err? <==> exists v :: v in members && v >= |ballots|
    decreases |members|
  {
    if members != [] {
      var n := |members| - 1;
      var last := members[n];
      OverwriteFails(ballots, members[..n], best);
      match Overwrite(ballots, members[..n], best)
      case Err(_) =>
        assert Overwrite(ballots, members, best).Err?;
        var w :| w in members[..n] && w >= |ballots|;
        InSnoc(members, w);
      case Ok(b) =>
        OverwriteMeaning(ballots, members[..n], best);
        assert Overwrite(ballots, members, best).Err? <==> last >= |ballots|;
        if last >= |ballots| {
          InSnoc(members, last);
        } else {
          forall v | v in members
            ensures v < |ballots|
          {
            InSnoc(members, v);
          }
        }
    }
  }

  /** `{voter: f(voter) ...}` has one entry per key. */
  lemma {:induction false} VoterDictDistinct<V>(voters: seq<VoterId>, f: VoterId -> V)
    ensures KeysDistinct(VoterDict(voters, f))
    decreases |voters|
  {
    if voters != [] {
      var n := |voters| - 1;
      VoterDictDistinct(voters[..n], f);
      PutDistinct(VoterDict(voters[..n], f), voters[n], f(voters[n]));
    }
  }

  /** Each entry of `{voter: f(voter) ...}` is `f` of a listed voter, and
      every listed voter has one. */
  lemma {:induction false} VoterDictGet<V>(voters: seq<VoterId>, f: VoterId -> V, v: VoterId)
    ensures Get(VoterDict(voters, f), v) == if v in voters then Some(f(v)) else None
    decreases |voters|
  {
    if voters != [] {
      var n := |voters| - 1;
      var prev := VoterDict(voters[..n], f);
      assert VoterDict(voters, f) == Put(prev, voters[n], f(voters[n]));
      VoterDictDistinct(voters[..n], f);
      PutGet(prev, voters[n], f(voters[n]), v);
      if v != voters[n] {
        VoterDictGet(voters[..n], f, v);
        InSnoc(voters, v);
      }
    }
  }

  /** A selected voter's list is not empty: its first strategy's original
      happiness is what the search compares against. */
  lemma SelectedHaveStrategies(voters: seq<VoterId>, strategies: StrategyLists, winner: Candidate, aim: Candidate,
                               best: Dict<VoterId, StrategyRecord>, v: VoterId)
    requires Selection(voters, strategies, winner, aim) == Ok(best)
    requires v in Keys(best)
    ensures ListOf(strategies, v) != []
    ensures Get(best, v).Some? && Aimed(Get(best, v).value, winner, aim)
  {
    SelectionMeaning(voters, strategies, winner, aim, best);
    var st := Get(best, v).value;
    assert Pick(ListOf(strategies, v), winner, aim) == Ok(Some(st));
  }

  /** A reported coalition: more than one colluder, each as happy as
      with its first strategy's original happiness or happier, at least
      one strictly happier, and every colluder's action ranks one common
      aim first with the honest winner in its bottom half. */
  predicate ValidReport(ctx: Context, info: CoalitionInfo)
  {
    |info.coalition| > 1 && info.originalWinner == ctx.winner &&
    (forall v :: v in info.coalition ==>
       Get(info.originalHappiness, v) == Some(FirstOriginal(ctx.strategies, v)) &&
       Get(info.strategicHappiness, v).Some? &&
       Get(info.strategicHappiness, v).value >= FirstOriginal(ctx.strategies, v)) &&
    (exists v :: v in info.coalition && Get(info.strategicHappiness, v).Some? &&
       Get(info.strategicHappiness, v).value > FirstOriginal(ctx.strategies, v)) &&
    exists aim :: AllActFor(info.actions, info.coalition, ctx.winner, aim)
  }

  predicate AllActFor(actions: Dict<VoterId, Ballot>, coalition: seq<VoterId>, winner: Candidate, aim: Candidate)
  {
    forall v :: v in coalition ==> ActsFor(actions, v, winner, aim)
  }

  /** The recorded action of `v` ranks `aim` first and the winner in its
      bottom half. */
  predicate ActsFor(actions: Dict<VoterId, Ballot>, v: VoterId, winner: Candidate, aim: Candidate)
  {
    match Get(actions, v)
      case None => false
      case Some(b) => b != [] && b[0] == aim && winner in b[|b| / 2..]
  }

  /** What the search returns is a valid report. */
  lemma {:induction false} SearchFound(ctx: Context, cs: seq<Coalition>, processed: set<seq<VoterId>>, info: CoalitionInfo)
    requires Search(ctx, cs, processed) == Ok(Some(info))
    ensures ValidReport(ctx, info)
    decreases |cs|
  {
    var best := SelectFor(ctx, cs[0]).value;
    var members := Members(cs[0].1, best);
    if members == [] || members in processed || |members| <= 1 {
      SearchFound(ctx, cs[1..], if members == [] || members in processed then processed else processed + {members}, info);
    } else if Outcome(ctx, members, best).value.0 {
      OutcomeValid(ctx, cs[0], best, members);
    } else {
      SearchFound(ctx, cs[1..], processed + {members}, info);
    }
  }

  /** The coalition a search reports is drawn from one of the coalitions
      searched, and its change in total happiness is measured against the
      honest total, where one is given. */
  lemma {:induction false} SearchFoundFrom(ctx: Context, cs: seq<Coalition>, processed: set<seq<VoterId>>, info: CoalitionInfo)
    requires Search(ctx, cs, processed) == Ok(Some(info))
    ensures info.totalGain == TotalGain(ctx.originalTotal, info.newTotal)
    ensures exists k :: 0 <= k < |cs| && forall v :: v in info.coalition ==> v in cs[k].1
    decreases |cs|
  {
    var best := SelectFor(ctx, cs[0]).value;
    var members := Members(cs[0].1, best);
    if members != [] && members !in processed && |members| > 1 && Outcome(ctx, members, best).value.0 {
      assert info == Outcome(ctx, members, best).value.1;
      OutcomeReport(ctx, members, best);
    } else {
      var next := if members == [] || members in processed then processed else processed + {members};
      SearchFoundFrom(ctx, cs[1..], next, info);
      var k :| 0 <= k < |cs[1..]| && forall v :: v in info.coalition ==> v in cs[1..][k].1;
      assert cs[1..][k] == cs[k + 1];
    }
  }

  lemma OutcomeReport(ctx: Context, members: seq<VoterId>, best: Dict<VoterId, StrategyRecord>)
    requires Outcome(ctx, members, best).Ok?
    ensures var info := Outcome(ctx, members, best).value.1;
            info.coalition == members &&
            info.totalGain == TotalGain(ctx.originalTotal, info.newTotal)
  {
    var strategic := Overwrite(ctx.sincere, members, best).value;
    var scored := ctx.evaluate(strategic).value;
    assert Outcome(ctx, members, best).value.1 == Report(ctx, members, strategic, scored.0, scored.1);
  }

  lemma OutcomeValid(ctx: Context, c: Coalition, best: Dict<VoterId, StrategyRecord>, members: seq<VoterId>)
    requires SelectFor(ctx, c) == Ok(best) && members == Members(c.1, best) && |members| > 1
    requires Outcome(ctx, members, best).Ok? && Outcome(ctx, members, best).value.0
    ensures ValidReport(ctx, Outcome(ctx, members, best).value.1)
  {
    var strategic := Overwrite(ctx.sincere, members, best).value;
    var scored := ctx.evaluate(strategic).value;
    var ind := scored.0.individual;
    var info := Outcome(ctx, members, best).value.1;
    assert info == Report(ctx, members, strategic, scored.0, scored.1);
    ReportEntries(ctx, c, best, members, strategic, scored.0, scored.1);
    HappinessByMember(ctx.strategies, ind, members);
    assert AllActFor(info.actions, members, ctx.winner, c.0);
  }

  /** Validity stated over the members rather than their positions. */
  lemma HappinessByMember(strategies: StrategyLists, ind: map<VoterId, real>, members: seq<VoterId>)
    requires HappinessValid(strategies, ind, members)
    ensures exists v :: v in members && GetOrZero(ind, v) > FirstOriginal(strategies, v)
    ensures forall v :: v in members ==> GetOrZero(ind, v) >= FirstOriginal(strategies, v)
  {
    var i :| 0 <= i < |members| && GetOrZero(ind, members[i]) > FirstOriginal(strategies, members[i]);
    assert members[i] in members;
  }

  /** The entries a report holds for each member of a scored coalition. */
  lemma ReportEntries(ctx: Context, c: Coalition, best: Dict<VoterId, StrategyRecord>, members: seq<VoterId>,
                      strategic: seq<Ballot>, happy: Happy, newWinner: Candidate)
    requires SelectFor(ctx, c) == Ok(best) && members == Members(c.1, best)
    requires Overwrite(ctx.sincere, members, best) == Ok(strategic)
    ensures var info := Report(ctx, members, strategic, happy, newWinner);
            forall v :: v in members ==>
              Get(info.originalHappiness, v) == Some(FirstOriginal(ctx.strategies, v)) &&
              Get(info.strategicHappiness, v) == Some(GetOrZero(happy.individual, v)) &&
              ActsFor(info.actions, v, ctx.winner, c.0)
  {
    var info := Report(ctx, members, strategic, happy, newWinner);
    OverwriteMeaning(ctx.sincere, members, best);
    forall v | v in members
      ensures Get(info.originalHappiness, v) == Some(FirstOriginal(ctx.strategies, v))
      ensures Get(info.strategicHappiness, v) == Some(GetOrZero(happy.individual, v))
      ensures ActsFor(info.actions, v, ctx.winner, c.0)
    {
      VoterDictGet(members, v => FirstOriginal(ctx.strategies, v), v);
      VoterDictGet(members, v => GetOrZero(happy.individual, v), v);
      ActionEntry(ctx, c, best, members, strategic, v);
    }
  }

  /** A member's recorded action is its selected strategy. */
  lemma ActionEntry(ctx: Context, c: Coalition, best: Dict<VoterId, StrategyRecord>, members: seq<VoterId>,
                    strategic: seq<Ballot>, v: VoterId)
    requires SelectFor(ctx, c) == Ok(best) && members == Members(c.1, best)
    requires Overwrite(ctx.sincere, members, best) == Ok(strategic)
    requires v in members
    ensures ActsFor(VoterDict(members, (v: VoterId) => if v < |strategic| then strategic[v] else []), v, ctx.winner, c.0)
  {
    OverwriteFails(ctx.sincere, members, best);
    OverwriteMeaning(ctx.sincere, members, best);
    assert v < |strategic|;
    VoterDictGet(members, (v: VoterId) => if v < |strategic| then strategic[v] else [], v);
    SelectedHaveStrategies(c.1, ctx.strategies, ctx.winner, c.0, best, v);
    assert strategic[v] == SelectedBallot(best, v);
  }

  /** The members left after one coalition's selection. */
  function MembersFor(ctx: Context, c: Coalition): (r: seq<VoterId>)
    requires SelectFor(ctx, c).Ok?
    ensures forall v :: v in r ==> v in c.1
  {
    Members(c.1, SelectFor(ctx, c).value)
  }

  /** Coalition `k` is the first whose members are evaluated: more than
      one member, not processed beforehand, and no earlier coalition left
      the same members. */
  predicate FirstTried(ctx: Context, cs: seq<Coalition>, processed: set<seq<VoterId>>, k: nat)
    requires k < |cs|
  {
    SelectFor(ctx, cs[k]).Ok? &&
    |MembersFor(ctx, cs[k])| > 1 && MembersFor(ctx, cs[k]) !in processed &&
    forall j :: 0 <= j < k ==> !(SelectFor(ctx, cs[j]).Ok? && MembersFor(ctx, cs[j]) == MembersFor(ctx, cs[k]))
  }

  /** Evaluating the coalition's members raised nothing and was not valid. */
  predicate Rejected(ctx: Context, c: Coalition)
    requires SelectFor(ctx, c).Ok?
  {
    var out := Outcome(ctx, MembersFor(ctx, c), SelectFor(ctx, c).value);
    out.Ok? && !out.value.0
  }

  /** A search that finds nothing selected every coalition without
      raising, and rejected each coalition whose members it evaluated. */
  lemma {:induction false} SearchNone(ctx: Context, cs: seq<Coalition>, processed: set<seq<VoterId>>)
    requires Search(ctx, cs, processed) == Ok(None)
    ensures forall k :: 0 <= k < |cs| ==> SelectFor(ctx, cs[k]).Ok?
    ensures forall k :: 0 <= k < |cs| && FirstTried(ctx, cs, processed, k) ==> Rejected(ctx, cs[k])
    decreases |cs|
  {
    if cs != [] {
      var best := SelectFor(ctx, cs[0]).value;
      var m := Members(cs[0].1, best);
      var next := if m == [] || m in processed then processed else processed + {m};
      assert Search(ctx, cs[1..], next) == Ok(None);
      SearchNone(ctx, cs[1..], next);
      forall k | 1 <= k < |cs|
        ensures SelectFor(ctx, cs[k]).Ok?
      {
        assert cs[k] == cs[1..][k - 1];
      }
      forall k | 0 <= k < |cs| && FirstTried(ctx, cs, processed, k)
        ensures Rejected(ctx, cs[k])
      {
        if k > 0 {
          SearchNoneLater(ctx, cs, processed, next, k);
        }
      }
    }
  }

  /** A coalition after the first is first evaluated in the rest of the
      search exactly when it is in the whole. */
  lemma SearchNoneLater(ctx: Context, cs: seq<Coalition>, processed: set<seq<VoterId>>,
                        next: set<seq<VoterId>>, k: nat)
    requires 0 < k < |cs| && SelectFor(ctx, cs[0]).Ok?
    requires var m := MembersFor(ctx, cs[0]);
             next == if m == [] || m in processed then processed else processed + {m}
    requires forall i :: 0 <= i < |cs[1..]| ==> SelectFor(ctx, cs[1..][i]).Ok?
    requires forall i :: 0 <= i < |cs[1..]| && FirstTried(ctx, cs[1..], next, i) ==> Rejected(ctx, cs[1..][i])
    requires FirstTried(ctx, cs, processed, k)
    ensures Rejected(ctx, cs[k])
  {
    assert cs[k] == cs[1..][k - 1];
    forall j | 0 <= j < k - 1
      ensures !(SelectFor(ctx, cs[1..][j]).Ok? && MembersFor(ctx, cs[1..][j]) == MembersFor(ctx, cs[k]))
    {
      assert cs[1..][j] == cs[j + 1];
    }
    assert MembersFor(ctx, cs[k]) != MembersFor(ctx, cs[0]);
    assert FirstTried(ctx, cs[1..], next, k - 1);
  }
}
