/** The four voting rules of tva/schemes.py.

    Each rule scans the ballots voter by voter, adds points into an
    insertion-ordered tally (`Counter` for plurality, vote-for-two and
    anti-plurality, a `defaultdict(int)` for Borda), and takes Python's
    `max(tally, key=tally.get)`: the FIRST key, in insertion order, whose
    score is maximal. */
module Schemes {
  import opened Common

  /** One tally increment: a candidate and the points it gains. */
  type Vote = (Candidate, int)

  /** An insertion-ordered tally (`Counter` / `defaultdict(int)`). */
  datatype Tally = Tally(order: seq<Candidate>, score: map<Candidate, int>)
  {
    ghost predicate Valid()
    {
      Distinct(order) && forall c :: c in score <==> c in order
    }

    /** `tally.get(c)`, with an absent key read as 0. */
    function Get(c: Candidate): int
    {
      if c in score then score[c] else 0
    }

    /** `tally[c] += pts`: a new key is appended to the insertion order. */
    function Add(c: Candidate, pts: int): Tally
    {
      if c in score then Tally(order, score[c := score[c] + pts])
      else Tally(order + [c], score[c := pts])
    }
  }

  /** The tally obtained by applying the increments of `votes` in order. */
  function TallyOf(votes: seq<Vote>): (t: Tally)
    ensures t.Valid()
  {
    if votes == [] then Tally([], map[])
    else
      var t := TallyOf(votes[..|votes| - 1]);
      var v := votes[|votes| - 1];
      assert t.Valid();
      t.Add(v.0, v.1)
  }

  /** The candidates of a scan, in scan order. */
  function Cands(votes: seq<Vote>): (cs: seq<Candidate>)
    ensures |cs| == |votes| && forall i :: 0 <= i < |votes| ==> cs[i] == votes[i].0
  {
    seq(|votes|, i requires 0 <= i < |votes| => votes[i].0)
  }

  /** Sum of the points `votes` give to `c`. */
  function Points(votes: seq<Vote>, c: Candidate): int
  {
    if votes == [] then 0
    else Points(votes[..|votes| - 1], c) + (if votes[|votes| - 1].0 == c then votes[|votes| - 1].1 else 0)
  }

  /** Python's `max(keys, key=score)`: the index of the first maximal key. */
  function ArgMaxFirst(order: seq<Candidate>, t: Tally): (k: nat)
    requires |order| > 0
    ensures k < |order|
    ensures forall i :: 0 <= i < |order| ==> t.Get(order[i]) <= t.Get(order[k])
    ensures forall i :: 0 <= i < k ==> t.Get(order[i]) < t.Get(order[k])
  {
    if |order| == 1 then 0
    else
      var k := ArgMaxFirst(order[..|order| - 1], t);
      if t.Get(order[|order| - 1]) > t.Get(order[k]) then |order| - 1 else k
  }

  /** `max(tally, key=tally.get)`; an empty tally raises ValueError. */
  function MaxKey(t: Tally): Result<Candidate>
  {
    if t.order == [] then Err(ValueError) else Ok(t.order[ArgMaxFirst(t.order, t)])
  }

  /** Each candidate with one point, in order (what `Counter(list)` counts). */
  function Unit(s: seq<Candidate>): (vs: seq<Vote>)
    ensures |vs| == |s| && forall i :: 0 <= i < |s| ==> vs[i] == (s[i], 1)
  {
    seq(|s|, i requires 0 <= i < |s| => (s[i], 1))
  }

  /** Borda points of a ballot: the entry at 0-indexed rank r gets m-1-r. */
  function BordaVotes(m: int, b: Ballot): (vs: seq<Vote>)
    ensures |vs| == |b| && forall r :: 0 <= r < |b| ==> vs[r] == (b[r], m - 1 - r)
  {
    seq(|b|, r requires 0 <= r < |b| => (b[r], m - 1 - r))
  }

  /** The increments one ballot contributes under each rule:
      plurality `preferences[0]`, vote-for-two `preferences[:2]`,
      anti-plurality `preferences[:-1]`, Borda every entry with its points. */
  function BallotVotes(rule: VotingScheme, m: int, b: Ballot): seq<Vote>
  {
    match rule
    case Plurality => if |b| == 0 then [] else Unit(b[..1])
    case VoteForTwo => Unit(if |b| < 2 then b else b[..2])
    case AntiPlurality => Unit(if |b| == 0 then [] else b[..|b| - 1])
    case Borda => BordaVotes(m, b)
  }

  /** The whole ballot scan, voter by voter. */
  function ScanOf(rule: VotingScheme, m: int, ballots: seq<Ballot>): seq<Vote>
  {
    if ballots == [] then []
    else ScanOf(rule, m, ballots[..|ballots| - 1]) + BallotVotes(rule, m, ballots[|ballots| - 1])
  }

  /** The tally a rule builds from the ballots. */
  function TallyFor(rule: VotingScheme, m: int, ballots: seq<Ballot>): Tally
  {
    TallyOf(ScanOf(rule, m, ballots))
  }

  // ---------------------------------------------------------------------
  // Reference scores, defined position by position for a single ballot.

  /** Borda points of `c` on one ballot, summed over the positions holding it. */
  function BordaPoints(m: int, b: Ballot, c: Candidate): int
  {
    if b == [] then 0
    else BordaPoints(m, b[..|b| - 1], c) + (if b[|b| - 1] == c then m - 1 - (|b| - 1) else 0)
  }

  /** The points one ballot gives `c` under `rule`. */
  function RefPoints(rule: VotingScheme, m: int, b: Ballot, c: Candidate): int
  {
    match rule
    case Plurality => if |b| > 0 && b[0] == c then 1 else 0
    case VoteForTwo =>
      (if |b| > 0 && b[0] == c then 1 else 0) + (if |b| > 1 && b[1] == c then 1 else 0)
    case AntiPlurality => if |b| == 0 then 0 else Count(b[..|b| - 1], c)
    case Borda => BordaPoints(m, b, c)
  }

  /** The reference score of `c`: its points summed over the voters. */
  function Score(rule: VotingScheme, m: int, ballots: seq<Ballot>, c: Candidate): int
  {
    if ballots == [] then 0
    else Score(rule, m, ballots[..|ballots| - 1], c) + RefPoints(rule, m, ballots[|ballots| - 1], c)
  }

  // ---------------------------------------------------------------------
  // The four rules.

  /** plurality_voting: an empty ballot makes `preferences[0]` raise
      IndexError; with no voters the Counter is empty and `max` raises
      ValueError. Otherwise the winner is some voter's first choice and no
      candidate is first on more ballots. */
  function PluralityVoting(ballots: seq<Ballot>): (r: Result<Candidate>)
    ensures r == Err(IndexError) <==> exists i :: 0 <= i < |ballots| && ballots[i] == []
    ensures r == Err(ValueError) <==> ballots == []
    ensures r.Ok? ==> exists i :: 0 <= i < |ballots| && ballots[i] != [] && ballots[i][0] == r.value
    ensures r.Ok? ==> forall c :: Score(Plurality, 0, ballots, c) <= Score(Plurality, 0, ballots, r.value)
  {
    if exists i :: 0 <= i < |ballots| && ballots[i] == [] then Err(IndexError)
    else
      WinnerMissing(Plurality, 0, ballots);
      assert ballots != [] ==> CountedPart(Plurality, ballots[0]) != [];
      var r := MaxKey(TallyFor(Plurality, 0, ballots));
      if r.Ok? then WinnerFacts(Plurality, 0, ballots, r.value); r else r
  }

  /** voting_for_two: `max` raises ValueError exactly when every ballot is
      empty (or there are no voters); otherwise the winner is among some
      voter's first two entries and no candidate has more top-two places. */
  function VotingForTwo(ballots: seq<Ballot>): (r: Result<Candidate>)
    ensures r.Err? <==> forall i :: 0 <= i < |ballots| ==> ballots[i] == []
    ensures r.Err? ==> r == Err(ValueError)
    ensures r.Ok? ==> exists i :: 0 <= i < |ballots| && r.value in ballots[i][..if |ballots[i]| < 2 then |ballots[i]| else 2]
    ensures r.Ok? ==> forall c :: Score(VoteForTwo, 0, ballots, c) <= Score(VoteForTwo, 0, ballots, r.value)
  {
    WinnerMissing(VoteForTwo, 0, ballots);
    var r := MaxKey(TallyFor(VoteForTwo, 0, ballots));
    if r.Ok? then WinnerFacts(VoteForTwo, 0, ballots, r.value); r else r
  }

  /** anti_plurality_voting: `max` raises ValueError exactly when no ballot
      has more than one entry; otherwise the winner occurs before the last
      entry of some ballot and no candidate has more such places. */
  function AntiPluralityVoting(ballots: seq<Ballot>): (r: Result<Candidate>)
    ensures r.Err? <==> forall i :: 0 <= i < |ballots| ==> |ballots[i]| <= 1
    ensures r.Err? ==> r == Err(ValueError)
    ensures r.Ok? ==> exists i :: 0 <= i < |ballots| && |ballots[i]| > 1 && r.value in ballots[i][..|ballots[i]| - 1]
    ensures r.Ok? ==> forall c :: Score(AntiPlurality, 0, ballots, c) <= Score(AntiPlurality, 0, ballots, r.value)
  {
    WinnerMissing(AntiPlurality, 0, ballots);
    var r := MaxKey(TallyFor(AntiPlurality, 0, ballots));
    if r.Ok? then WinnerFacts(AntiPlurality, 0, ballots, r.value); r else r
  }

  /** What borda_voting returns: `preference_matrix[0]` raises IndexError
      with no voters, and m is the length of the FIRST voter's ballot. `max`
      raises ValueError when every ballot is empty; otherwise the winner is
      on some ballot and has the highest Borda score among the scored
      candidates. */
  function BordaWinner(ballots: seq<Ballot>): (r: Result<Candidate>)
    ensures r == Err(IndexError) <==> ballots == []
    ensures r == Err(ValueError) <==> ballots != [] && forall i :: 0 <= i < |ballots| ==> ballots[i] == []
    ensures r.Ok? ==> exists i :: 0 <= i < |ballots| && r.value in ballots[i]
    ensures r.Ok? ==> forall c :: c in TallyFor(Borda, |ballots[0]|, ballots).order ==>
              Score(Borda, |ballots[0]|, ballots, c) <= Score(Borda, |ballots[0]|, ballots, r.value)
  {
    if ballots == [] then Err(IndexError)
    else
      WinnerMissing(Borda, |ballots[0]|, ballots);
      var r := MaxKey(TallyFor(Borda, |ballots[0]|, ballots));
      if r.Ok? then WinnerFacts(Borda, |ballots[0]|, ballots, r.value); r else r
  }

  /** Appending one increment updates the tally by `Add`. */
  lemma TallyStep(votes: seq<Vote>, v: Vote)
    ensures TallyOf(votes + [v]) == TallyOf(votes).Add(v.0, v.1)
  {
    assert (votes + [v])[..|votes|] == votes;
  }

  /** The scan of one more voter extends the scan of the earlier voters. */
  lemma ScanStep(rule: VotingScheme, m: int, ballots: seq<Ballot>, i: nat)
    requires i < |ballots|
    ensures ScanOf(rule, m, ballots[..i + 1]) == ScanOf(rule, m, ballots[..i]) + BallotVotes(rule, m, ballots[i])
  {
    assert ballots[..i + 1][..i] == ballots[..i];
  }

  /** The inner loop of borda_voting: `for rank, candidate in
      enumerate(voter.preferences): scores[candidate] += m - 1 - rank`. */
  method AddBallotPoints(scores: Tally, ghost done: seq<Vote>, m: int, b: Ballot) returns (scores': Tally)
    requires scores == TallyOf(done)
    ensures scores' == TallyOf(done + BordaVotes(m, b))
  {
    scores' := scores;
    var rank := 0;
    assert done + BordaVotes(m, b)[..0] == done;
    while rank < |b|
      invariant 0 <= rank <= |b|
      invariant scores' == TallyOf(done + BordaVotes(m, b)[..rank])
    {
      BordaPrefixStep(done, m, b, rank);
      scores' := scores'.Add(b[rank], m - 1 - rank);
      rank := rank + 1;
    }
    assert BordaVotes(m, b)[..rank] == BordaVotes(m, b);
  }

  /** Rank k of the ballot adds its points on top of the ranks before it. */
  lemma BordaPrefixStep(done: seq<Vote>, m: int, b: Ballot, k: nat)
    requires k < |b|
    ensures TallyOf(done + BordaVotes(m, b)[..k + 1]) == TallyOf(done + BordaVotes(m, b)[..k]).Add(b[k], m - 1 - k)
  {
    var bv := BordaVotes(m, b);
    assert done + bv[..k + 1] == (done + bv[..k]) + [(b[k], m - 1 - k)];
    TallyStep(done + bv[..k], (b[k], m - 1 - k));
  }

  /** The outer loop of borda_voting: every voter's points added into
      `scores`, giving the tally of the whole scan. */
  method BordaScores(ballots: seq<Ballot>, m: int) returns (scores: Tally)
    ensures scores == TallyFor(Borda, m, ballots)
  {
    scores := Tally([], map[]);
    var i := 0;
    while i < |ballots|
      invariant 0 <= i <= |ballots|
      invariant scores == TallyOf(ScanOf(Borda, m, ballots[..i]))
    {
      scores := AddBallotPoints(scores, ScanOf(Borda, m, ballots[..i]), m, ballots[i]);
      ScanStep(Borda, m, ballots, i);
      i := i + 1;
    }
    assert ballots[..i] == ballots;
  }

  /** borda_voting: m from the first voter's ballot, the scores, then `max`. */
  method BordaVoting(ballots: seq<Ballot>) returns (r: Result<Candidate>)
    ensures r == BordaWinner(ballots)
  {
    if |ballots| == 0 {
      return Err(IndexError);
    }
    var m := |ballots[0]|;
    var scores := BordaScores(ballots, m);
    r := MaxKey(scores);
  }

  /** Apply a rule by name. */
  function ApplyScheme(rule: VotingScheme, ballots: seq<Ballot>): Result<Candidate>
  {
    match rule
    case Plurality => PluralityVoting(ballots)
    case VoteForTwo => VotingForTwo(ballots)
    case AntiPlurality => AntiPluralityVoting(ballots)
    case Borda => BordaWinner(ballots)
  }

  // ---------------------------------------------------------------------
  // Tally correctness.

  /** The part of a ballot a rule counts. */
  function CountedPart(rule: VotingScheme, b: Ballot): seq<Candidate>
  {
    match rule
    case Plurality => if |b| == 0 then [] else b[..1]
    case VoteForTwo => if |b| < 2 then b else b[..2]
    case AntiPlurality => if |b| == 0 then [] else b[..|b| - 1]
    case Borda => b
  }

  lemma {:induction false} PointsAppend(a: seq<Vote>, b: seq<Vote>, c: Candidate)
    ensures Points(a + b, c) == Points(a, c) + Points(b, c)
    decreases |b|
  {
    if b == [] {
      assert a + b == a;
    } else {
      assert (a + b)[..|a + b| - 1] == a + b[..|b| - 1];
      PointsAppend(a, b[..|b| - 1], c);
    }
  }

  lemma {:induction false} CandsAppend(a: seq<Vote>, b: seq<Vote>)
    ensures Cands(a + b) == Cands(a) + Cands(b)
  {
  }

  /** The tally holds, for each candidate, the sum of its increments, and
      has a key exactly for the candidates that occur in the scan. */
  lemma {:induction false} TallyIsSum(votes: seq<Vote>, c: Candidate)
    ensures TallyOf(votes).Get(c) == Points(votes, c)
    ensures c in TallyOf(votes).order <==> c in Cands(votes)
    decreases |votes|
  {
    if votes != [] {
      var init := votes[..|votes| - 1];
      TallyIsSum(init, c);
      CandsAppend(init, [votes[|votes| - 1]]);
      assert init + [votes[|votes| - 1]] == votes;
    }
  }

  lemma {:induction false} UnitPoints(s: seq<Candidate>, c: Candidate)
    ensures Points(Unit(s), c) == Count(s, c)
    decreases |s|
  {
    if s != [] {
      assert Unit(s)[..|s| - 1] == Unit(s[..|s| - 1]);
      UnitPoints(s[..|s| - 1], c);
    }
  }

  lemma {:induction false} BordaVotesPoints(m: int, b: Ballot, c: Candidate)
    ensures Points(BordaVotes(m, b), c) == BordaPoints(m, b, c)
    decreases |b|
  {
    if b != [] {
      assert BordaVotes(m, b)[..|b| - 1] == BordaVotes(m, b[..|b| - 1]);
      BordaVotesPoints(m, b[..|b| - 1], c);
    }
  }

  /** One ballot's increments give `c` exactly its reference points. */
  lemma BallotPointsMatch(rule: VotingScheme, m: int, b: Ballot, c: Candidate)
    ensures Points(BallotVotes(rule, m, b), c) == RefPoints(rule, m, b, c)
    ensures Cands(BallotVotes(rule, m, b)) == CountedPart(rule, b)
  {
    match rule
    case Plurality =>
      if |b| > 0 {
        UnitPoints(b[..1], c);
        assert b[..1][..0] == [];
      }
    case VoteForTwo =>
      var s := if |b| < 2 then b else b[..2];
      UnitPoints(s, c);
      if |s| == 2 {
        assert s[..1] == [b[0]] && s[..1][..0] == [];
        assert Count(s, c) == Count(s[..1], c) + (if b[1] == c then 1 else 0);
      } else if |s| == 1 {
        assert s[..0] == [];
      }
    case AntiPlurality =>
      UnitPoints(if |b| == 0 then [] else b[..|b| - 1], c);
    case Borda =>
      BordaVotesPoints(m, b, c);
  }

  /** Tally correctness: the tally a rule builds gives every candidate its
      reference score, the sum over the voters of its per-ballot points. */
  lemma {:induction false} TallyMatchesScore(rule: VotingScheme, m: int, ballots: seq<Ballot>, c: Candidate)
    ensures TallyFor(rule, m, ballots).Get(c) == Score(rule, m, ballots, c)
    decreases |ballots|
  {
    TallyIsSum(ScanOf(rule, m, ballots), c);
    if ballots != [] {
      var init := ballots[..|ballots| - 1];
      var last := ballots[|ballots| - 1];
      TallyMatchesScore(rule, m, init, c);
      TallyIsSum(ScanOf(rule, m, init), c);
      PointsAppend(ScanOf(rule, m, init), BallotVotes(rule, m, last), c);
      BallotPointsMatch(rule, m, last, c);
    }
  }

  /** Some ballot's counted part contains `c`. */
  predicate InSomeCounted(rule: VotingScheme, ballots: seq<Ballot>, c: Candidate)
  {
    exists i :: 0 <= i < |ballots| && c in CountedPart(rule, ballots[i])
  }

  lemma InSomeCountedStep(rule: VotingScheme, ballots: seq<Ballot>, c: Candidate)
    requires ballots != []
    ensures InSomeCounted(rule, ballots, c) <==>
              InSomeCounted(rule, ballots[..|ballots| - 1], c) || c in CountedPart(rule, ballots[|ballots| - 1])
  {
    var init := ballots[..|ballots| - 1];
    if InSomeCounted(rule, ballots, c) {
      var i :| 0 <= i < |ballots| && c in CountedPart(rule, ballots[i]);
      if i < |init| {
        assert init[i] == ballots[i];
      }
    }
    if InSomeCounted(rule, init, c) {
      var i :| 0 <= i < |init| && c in CountedPart(rule, init[i]);
      assert ballots[i] == init[i];
    }
  }

  /** The tally has a key exactly for the candidates some ballot's counted
      part contains. */
  lemma {:induction false} TallyKeys(rule: VotingScheme, m: int, ballots: seq<Ballot>, c: Candidate)
    ensures c in TallyFor(rule, m, ballots).order <==> InSomeCounted(rule, ballots, c)
    decreases |ballots|
  {
    TallyIsSum(ScanOf(rule, m, ballots), c);
    if ballots != [] {
      var init := ballots[..|ballots| - 1];
      var last := ballots[|ballots| - 1];
      TallyKeys(rule, m, init, c);
      TallyIsSum(ScanOf(rule, m, init), c);
      assert ScanOf(rule, m, ballots) == ScanOf(rule, m, init) + BallotVotes(rule, m, last);
      CandsAppend(ScanOf(rule, m, init), BallotVotes(rule, m, last));
      BallotPointsMatch(rule, m, last, c);
      InSomeCountedStep(rule, ballots, c);
    }
  }

  // ---------------------------------------------------------------------
  // Tallies depend only on the multiset of ballots.

  lemma {:induction false} ScoreAppend(rule: VotingScheme, m: int, a: seq<Ballot>, b: seq<Ballot>, c: Candidate)
    ensures Score(rule, m, a + b, c) == Score(rule, m, a, c) + Score(rule, m, b, c)
    decreases |b|
  {
    if b == [] {
      assert a + b == a;
    } else {
      assert (a + b)[..|a + b| - 1] == a + b[..|b| - 1];
      ScoreAppend(rule, m, a, b[..|b| - 1], c);
    }
  }

  /** Reordering the voters does not change any candidate's score. */
  lemma {:induction false} ScorePermutationInvariant(rule: VotingScheme, m: int, a: seq<Ballot>, b: seq<Ballot>, c: Candidate)
    requires multiset(a) == multiset(b)
    ensures Score(rule, m, a, c) == Score(rule, m, b, c)
    decreases |a|
  {
    if a == [] {
      assert |b| == |multiset(b)| == 0;
    } else {
      var x := a[|a| - 1];
      assert x in multiset(b);
      var j :| 0 <= j < |b| && b[j] == x;
      var rest := b[..j] + b[j + 1..];
      RemoveMatched(a, b, j);
      assert b == b[..j] + [x] + b[j + 1..];
      ScorePermutationInvariant(rule, m, a[..|a| - 1], rest, c);
      ScoreAppend(rule, m, b[..j] + [x], b[j + 1..], c);
      ScoreAppend(rule, m, b[..j], [x], c);
      ScoreAppend(rule, m, b[..j], b[j + 1..], c);
      assert [x][..0] == [];
    }
  }

  /** The tally of a rule depends only on the multiset of ballots: the same
      scores and the same key set for any reordering of the voters (only the
      insertion order of the keys, and hence the tie-break, can differ). */
  lemma TallyPermutationInvariant(rule: VotingScheme, m: int, a: seq<Ballot>, b: seq<Ballot>, c: Candidate)
    requires multiset(a) == multiset(b)
    ensures TallyFor(rule, m, a).Get(c) == TallyFor(rule, m, b).Get(c)
    ensures c in TallyFor(rule, m, a).order <==> c in TallyFor(rule, m, b).order
  {
    TallyMatchesScore(rule, m, a, c);
    TallyMatchesScore(rule, m, b, c);
    TallyKeys(rule, m, a, c);
    TallyKeys(rule, m, b, c);
    ScorePermutationInvariant(rule, m, a, b, c);
    if c in TallyFor(rule, m, a).order {
      var i :| 0 <= i < |a| && c in CountedPart(rule, a[i]);
      assert a[i] in multiset(b);
      var j :| 0 <= j < |b| && b[j] == a[i];
    }
    if c in TallyFor(rule, m, b).order {
      var i :| 0 <= i < |b| && c in CountedPart(rule, b[i]);
      assert b[i] in multiset(a);
      var j :| 0 <= j < |a| && a[j] == b[i];
    }
  }

  // ---------------------------------------------------------------------
  // The tie-break: first insertion into the tally.

  lemma {:induction false} IndexOfAppend(s: seq<Candidate>, y: Candidate, x: Candidate)
    requires x in s
    ensures IndexOf(s + [y], x) == IndexOf(s, x)
    decreases |s|
  {
    if s[0] != x {
      assert (s + [y])[1..] == s[1..] + [y];
      IndexOfAppend(s[1..], y, x);
    }
  }

  /** The tally's keys stand in the order of their first appearance in the scan. */
  lemma {:induction false} KeysInFirstAppearanceOrder(votes: seq<Vote>)
    ensures forall k :: k in TallyOf(votes).order ==> k in Cands(votes)
    ensures forall i, j :: 0 <= i < j < |TallyOf(votes).order| ==>
              FirstIndex(Cands(votes), TallyOf(votes).order[i]) < FirstIndex(Cands(votes), TallyOf(votes).order[j])
    decreases |votes|
  {
    if votes != [] {
      var init := votes[..|votes| - 1];
      var v := votes[|votes| - 1];
      KeysInFirstAppearanceOrder(init);
      CandsAppend(init, [v]);
      assert init + [v] == votes;
      var cs := Cands(init);
      assert Cands(votes) == cs + [v.0];
      var t := TallyOf(init);
      forall k | k in t.order
        ensures IndexOf(Cands(votes), k) == IndexOf(cs, k)
      {
        IndexOfAppend(cs, v.0, k);
      }
      if v.0 !in t.score {
        TallyIsSum(init, v.0);
        assert v.0 !in cs;
        assert FirstIndex(Cands(votes), v.0) == |cs| by {
          assert Cands(votes)[|cs|] == v.0;
          assert Cands(votes)[..|cs|] == cs;
        }
      }
    }
  }

  /** What `max(tally, key=tally.get)` returns: a key with the highest score,
      and among the keys with that score the one inserted first. */
  lemma MaxKeyIsFirstMaximal(t: Tally, w: Candidate)
    requires t.Valid() && MaxKey(t) == Ok(w)
    ensures w in t.order
    ensures forall c :: c in t.order ==> t.Get(c) <= t.Get(w)
    ensures forall c :: c in t.order && c != w && t.Get(c) == t.Get(w) ==>
              FirstIndex(t.order, w) < FirstIndex(t.order, c)
  {
    var k := ArgMaxFirst(t.order, t);
    assert FirstIndex(t.order, w) == k;
    forall c | c in t.order && c != w && t.Get(c) == t.Get(w)
      ensures FirstIndex(t.order, w) < FirstIndex(t.order, c)
    {
      var j := FirstIndex(t.order, c);
      assert j != k;
    }
  }

  /** The tie-break of every rule: the winner has the highest score, and any
      other candidate with the same score appeared later in the ballot scan
      (voter by voter, each ballot's counted part left to right). */
  lemma TieBreakByFirstAppearance(rule: VotingScheme, m: int, ballots: seq<Ballot>, w: Candidate)
    requires MaxKey(TallyFor(rule, m, ballots)) == Ok(w)
    ensures w in Cands(ScanOf(rule, m, ballots))
    ensures forall c :: c in TallyFor(rule, m, ballots).order ==> c in Cands(ScanOf(rule, m, ballots))
    ensures forall c :: c in TallyFor(rule, m, ballots).order ==>
              Score(rule, m, ballots, c) <= Score(rule, m, ballots, w)
    ensures forall c :: (c in TallyFor(rule, m, ballots).order && c != w &&
              Score(rule, m, ballots, c) == Score(rule, m, ballots, w)) ==>
              FirstIndex(Cands(ScanOf(rule, m, ballots)), w) < FirstIndex(Cands(ScanOf(rule, m, ballots)), c)
  {
    var t := TallyFor(rule, m, ballots);
    var votes := ScanOf(rule, m, ballots);
    MaxKeyIsFirstMaximal(t, w);
    KeysInFirstAppearanceOrder(votes);
    TallyMatchesScore(rule, m, ballots, w);
    forall c | c in t.order
      ensures Score(rule, m, ballots, c) <= Score(rule, m, ballots, w)
    {
      TallyMatchesScore(rule, m, ballots, c);
    }
    forall c | c in t.order && c != w && Score(rule, m, ballots, c) == Score(rule, m, ballots, w)
      ensures FirstIndex(Cands(votes), w) < FirstIndex(Cands(votes), c)
    {
      TallyMatchesScore(rule, m, ballots, c);
      var i, j := FirstIndex(t.order, w), FirstIndex(t.order, c);
      assert i < j;
    }
  }

  // ---------------------------------------------------------------------
  // What each rule's winner is.

  lemma {:induction false} CountNonNegative(rule: VotingScheme, m: int, ballots: seq<Ballot>, c: Candidate)
    requires rule != Borda
    ensures Score(rule, m, ballots, c) >= 0
    decreases |ballots|
  {
    if ballots != [] {
      CountNonNegative(rule, m, ballots[..|ballots| - 1], c);
    }
  }

  /** `max` raises ValueError exactly when no ballot had anything counted. */
  lemma WinnerMissing(rule: VotingScheme, m: int, ballots: seq<Ballot>)
    ensures MaxKey(TallyFor(rule, m, ballots)).Err? <==>
              forall i :: 0 <= i < |ballots| ==> CountedPart(rule, ballots[i]) == []
  {
    var t := TallyFor(rule, m, ballots);
    if t.order == [] {
      forall i | 0 <= i < |ballots|
        ensures CountedPart(rule, ballots[i]) == []
      {
        if CountedPart(rule, ballots[i]) != [] {
          TallyKeys(rule, m, ballots, CountedPart(rule, ballots[i])[0]);
        }
      }
    } else {
      TallyKeys(rule, m, ballots, t.order[0]);
    }
  }

  /** Otherwise the winner was counted on some ballot and has the highest
      score among the tally's keys; for the counting rules, whose scores are
      never negative, among all candidates. */
  lemma WinnerFacts(rule: VotingScheme, m: int, ballots: seq<Ballot>, w: Candidate)
    requires MaxKey(TallyFor(rule, m, ballots)) == Ok(w)
    ensures exists i :: 0 <= i < |ballots| && w in CountedPart(rule, ballots[i])
    ensures forall c :: c in TallyFor(rule, m, ballots).order ==> Score(rule, m, ballots, c) <= Score(rule, m, ballots, w)
    ensures rule != Borda ==> forall c :: Score(rule, m, ballots, c) <= Score(rule, m, ballots, w)
  {
    var t := TallyFor(rule, m, ballots);
    TieBreakByFirstAppearance(rule, m, ballots, w);
    TallyKeys(rule, m, ballots, w);
    if rule != Borda {
      forall c
        ensures Score(rule, m, ballots, c) <= Score(rule, m, ballots, w)
      {
        if c !in t.order {
          TallyMatchesScore(rule, m, ballots, c);
          CountNonNegative(rule, m, ballots, w);
        }
      }
    }
  }

  /** On a ballot without repeats, Borda gives the candidate at 0-indexed
      rank r exactly m-1-r points, and an absent candidate none. */
  lemma {:induction false} BordaPointsOfRank(m: int, b: Ballot, c: Candidate)
    requires Distinct(b)
    ensures BordaPoints(m, b, c) == if c in b then m - 1 - FirstIndex(b, c) else 0
    decreases |b|
  {
    if b != [] {
      var init := b[..|b| - 1];
      BordaPointsOfRank(m, init, c);
      if c in init {
        IndexOfAppend(init, b[|b| - 1], c);
        assert init + [b[|b| - 1]] == b;
      } else if c == b[|b| - 1] {
        assert b[..|b| - 1] == init;
      }
    }
  }

  lemma {:induction false} CountAbsent(s: seq<Candidate>, c: Candidate)
    requires c !in s
    ensures Count(s, c) == 0
    decreases |s|
  {
    if s != [] {
      CountAbsent(s[..|s| - 1], c);
    }
  }

  /** A candidate ranked last by every voter gets no anti-plurality point,
      and so never wins. */
  lemma {:induction false} LastEverywhereNeverWins(ballots: seq<Ballot>, c: Candidate)
    requires forall i :: 0 <= i < |ballots| ==> Distinct(ballots[i]) && |ballots[i]| > 0 && ballots[i][|ballots[i]| - 1] == c
    ensures Score(AntiPlurality, 0, ballots, c) == 0
    ensures AntiPluralityVoting(ballots) != Ok(c)
    decreases |ballots|
  {
    if ballots != [] {
      var b := ballots[|ballots| - 1];
      LastEverywhereNeverWins(ballots[..|ballots| - 1], c);
      assert c !in b[..|b| - 1];
      CountAbsent(b[..|b| - 1], c);
    }
  }

  lemma PluralityTieTally(ballots: seq<Ballot>)
    requires ballots == ["BA", "AB"]
    ensures TallyFor(Plurality, 0, ballots) == Tally(['B', 'A'], map['B' := 1, 'A' := 1])
  {
    var v1, v2 := BallotVotes(Plurality, 0, "BA"), BallotVotes(Plurality, 0, "AB");
    assert v1 == [('B', 1)] && v2 == [('A', 1)] by {
      assert "BA"[..1] == ['B'] && "AB"[..1] == ['A'];
    }
    assert ScanOf(Plurality, 0, ballots) == v1 + v2 by {
      ScanStep(Plurality, 0, ballots, 0);
      ScanStep(Plurality, 0, ballots, 1);
      assert ballots[..0] == [] && ballots[..2] == ballots;
    }
    var t1 := TallyOf(v1);
    assert t1 == Tally(['B'], map['B' := 1]) by {
      assert v1[..0] == [];
    }
    assert v1 + v2 == v1 + [('A', 1)];
    TallyStep(v1, ('A', 1));
  }

  lemma PluralityOfFullBallots(ballots: seq<Ballot>)
    requires forall i :: 0 <= i < |ballots| ==> ballots[i] != []
    ensures PluralityVoting(ballots) == MaxKey(TallyFor(Plurality, 0, ballots))
  {
  }

  /** Ties are broken by first appearance, not alphabetically: one voter
      puts B first, one puts A first, and B wins. */
  lemma PluralityTieGoesToFirstSeen(ballots: seq<Ballot>)
    requires ballots == ["BA", "AB"]
    ensures PluralityVoting(ballots) == Ok('B')
  {
    TieGoesToFirstKey();
    PluralityTieTally(ballots);
    assert ballots[0] != [] && ballots[1] != [];
    PluralityOfFullBallots(ballots);
  }

  lemma TieGoesToFirstKey()
    ensures MaxKey(Tally(['B', 'A'], map['B' := 1, 'A' := 1])) == Ok('B')
  {
    var t := Tally(['B', 'A'], map['B' := 1, 'A' := 1]);
    assert t.order[..1] == ['B'];
  }

  /** The scan of the first voters is a prefix of the whole scan. */
  lemma {:induction false} ScanPrefix(rule: VotingScheme, m: int, ballots: seq<Ballot>, i: nat)
    requires i <= |ballots|
    ensures ScanOf(rule, m, ballots[..i]) <= ScanOf(rule, m, ballots)
    decreases |ballots| - i
  {
    if i < |ballots| {
      ScanStep(rule, m, ballots, i);
      ScanPrefix(rule, m, ballots, i + 1);
    } else {
      assert ballots[..i] == ballots;
    }
  }

  /** In a ballot without repeats, the entry at position i is first found at i. */
  lemma FirstIndexOfDistinct(s: seq<Candidate>, i: nat)
    requires Distinct(s) && i < |s|
    ensures FirstIndex(s, s[i]) == i
  {
  }

  /** Borda points of `c` in the four rotations of ABCD. */
  lemma CyclicPoints(c: Candidate, i: nat)
    requires i < 4 && c == "ABCD"[i]
    ensures BordaPoints(4, "ABCD", c) + BordaPoints(4, "BCDA", c) + BordaPoints(4, "CDAB", c) + BordaPoints(4, "DABC", c) == 6
  {
    var rot := ["ABCD", "BCDA", "CDAB", "DABC"];
    forall r | 0 <= r < 4
      ensures BordaPoints(4, rot[r], c) == 3 - (i - r + 4) % 4
    {
      var j := (i - r + 4) % 4;
      assert rot[r][j] == c;
      FirstIndexOfDistinct(rot[r], j);
      BordaPointsOfRank(4, rot[r], c);
    }
    assert rot[0] == "ABCD" && rot[1] == "BCDA" && rot[2] == "CDAB" && rot[3] == "DABC";
  }

  lemma BordaOfVoters(ballots: seq<Ballot>)
    requires ballots != []
    ensures BordaWinner(ballots) == MaxKey(TallyFor(Borda, |ballots[0]|, ballots))
  {
  }

  /** In the cyclic profile ABCD, BCDA, CDAB, DABC every candidate scores 6. */
  lemma CyclicScores(c: Candidate)
    requires c in "ABCD"
    ensures Score(Borda, 4, ["ABCD", "BCDA", "CDAB", "DABC"], c) == 6
  {
    var ballots := ["ABCD", "BCDA", "CDAB", "DABC"];
    assert ballots[..3] == ["ABCD", "BCDA", "CDAB"];
    assert ballots[..3][..2] == ["ABCD", "BCDA"];
    assert ballots[..3][..2][..1] == ["ABCD"];
    assert ballots[..3][..2][..1][..0] == [];
    var i :| 0 <= i < 4 && "ABCD"[i] == c;
    CyclicPoints(c, i);
    var b3, b2, b1 := ballots[..3], ballots[..3][..2], ballots[..3][..2][..1];
    assert Score(Borda, 4, b1, c) == BordaPoints(4, "ABCD", c);
    assert Score(Borda, 4, b2, c) == Score(Borda, 4, b1, c) + BordaPoints(4, "BCDA", c);
    assert Score(Borda, 4, b3, c) == Score(Borda, 4, b2, c) + BordaPoints(4, "CDAB", c);
    assert Score(Borda, 4, ballots, c) == Score(Borda, 4, b3, c) + BordaPoints(4, "DABC", c);
  }

  /** The first key of a tally is the candidate of the first increment. */
  lemma {:induction false} FirstKeyIsFirstVote(votes: seq<Vote>)
    requires votes != []
    ensures TallyOf(votes).order != [] && TallyOf(votes).order[0] == votes[0].0
    decreases |votes|
  {
    if |votes| > 1 {
      var init := votes[..|votes| - 1];
      FirstKeyIsFirstVote(init);
      assert init[0] == votes[0];
    }
  }

  /** The first key of the cyclic profile's tally is the first voter's top choice. */
  lemma CyclicFirstKey()
    ensures TallyFor(Borda, 4, ["ABCD", "BCDA", "CDAB", "DABC"]).order != []
    ensures TallyFor(Borda, 4, ["ABCD", "BCDA", "CDAB", "DABC"]).order[0] == 'A'
  {
    var ballots := ["ABCD", "BCDA", "CDAB", "DABC"];
    var votes := ScanOf(Borda, 4, ballots);
    ScanPrefix(Borda, 4, ballots, 1);
    assert ScanOf(Borda, 4, ballots[..1]) == BordaVotes(4, "ABCD") by {
      assert ballots[..1] == ["ABCD"] && ballots[..1][..0] == [];
    }
    assert votes[0] == BordaVotes(4, "ABCD")[0];
    FirstKeyIsFirstVote(votes);
  }

  lemma CyclicMembers(b: Ballot, c: Candidate)
    requires b in ["ABCD", "BCDA", "CDAB", "DABC"] && c in b
    ensures c in "ABCD"
  {
    var j :| 0 <= j < |b| && b[j] == c;
    assert "ABCD"[0] == 'A' && "ABCD"[1] == 'B' && "ABCD"[2] == 'C' && "ABCD"[3] == 'D';
  }

  /** The cyclic Borda profile: all four candidates tie on 6 points and the
      first voter's top choice, the first key inserted, wins. */
  lemma CyclicBordaTie(ballots: seq<Ballot>)
    requires ballots == ["ABCD", "BCDA", "CDAB", "DABC"]
    ensures BordaWinner(ballots) == Ok('A')
  {
    var t := TallyFor(Borda, 4, ballots);
    BordaOfVoters(ballots);
    CyclicFirstKey();
    var k := ArgMaxFirst(t.order, t);
    if k != 0 {
      TallyKeys(Borda, 4, ballots, t.order[k]);
      TallyMatchesScore(Borda, 4, ballots, t.order[k]);
      TallyMatchesScore(Borda, 4, ballots, 'A');
      var i :| 0 <= i < |ballots| && t.order[k] in ballots[i];
      CyclicMembers(ballots[i], t.order[k]);
      CyclicScores(t.order[k]);
      CyclicScores('A');
    }
  }
}
