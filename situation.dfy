/** tva/situation.py and tva/voter.py: the candidates of an election (the
    first letters of the alphabet) and its voters, each with an id and a
    preference list. The random shuffles that give each voter its ballot
    are supplied as input (`samples`). */
module Situation {
  import opened Common

  /** `string.ascii_uppercase`. */
  const Uppercase: seq<char> := "ABCDEFGHIJKLMNOPQRSTUVWXYZ"

  /** tva/voter.py Voter: an id and a preference list. The preference list
      is a field because the strategies of tva/strategies.py rewrite it in
      place. */
  class Voter {
    var id: VoterId
    var preferences: Ballot

    /** `Voter(voter_id, candidates)`: `get_preferences` shuffles the
        candidates with `random.sample`; that shuffle is `sample`. */
    constructor (voterId: VoterId, sample: Ballot)
      ensures id == voterId && preferences == sample
    {
      id := voterId;
      preferences := sample;
    }
  }

  /** create_candidates: the first min(max(n, 0), 26) upper-case letters,
      in alphabetical order. */
  function CreateCandidates(n: int): (r: seq<Candidate>)
    ensures |r| == if n < 0 then 0 else if n > 26 then 26 else n
    ensures forall i :: 0 <= i < |r| ==> 'A' <= r[i] <= 'Z' && r[i] as int == 'A' as int + i
    ensures forall i, j :: 0 <= i < j < |r| ==> r[i] < r[j]
  {
    var k := if n < 0 then 0 else if n > 26 then 26 else n;
    UppercaseLetters();
    Uppercase[..k]
  }

  lemma UppercaseLetters()
    ensures forall i :: 0 <= i < 26 ==> Uppercase[i] as int == 'A' as int + i
  {
  }

  /** Asking for more candidates extends the list: the labels of a smaller
      election are a prefix of those of a larger one. */
  lemma CandidatesGrow(m: int, n: int)
    requires m <= n
    ensures CreateCandidates(m) <= CreateCandidates(n)
  {
    var a, b := CreateCandidates(m), CreateCandidates(n);
    assert |a| <= |b|;
    forall i | 0 <= i < |a|
      ensures a[i] == b[i]
    {
      assert a[i] as int == b[i] as int;
    }
  }

  /** The labels never repeat, so every shuffle of them is a ballot
      without repeats. */
  lemma CandidatesDistinct(n: int)
    ensures Distinct(CreateCandidates(n))
  {
    var r := CreateCandidates(n);
    forall i, j | 0 <= i < j < |r|
      ensures r[i] != r[j]
    {
    }
  }

  /** tva/situation.py Situation: the candidates, the voters and the
      preference matrix (the voters' ballots, by position). */
  class Situation {
    var candidates: seq<Candidate>
    var voters: seq<Voter>
    var preferenceMatrix: seq<Ballot>

    /** `Situation(num_voters, num_candidates)`: the candidates, then
        create_situation. `samples[i]` is voter i's shuffle. */
    constructor (numVoters: int, numCandidates: int, samples: seq<Ballot>)
      requires numVoters <= |samples|
      ensures candidates == CreateCandidates(numCandidates)
      ensures |voters| == |preferenceMatrix| == if numVoters < 0 then 0 else numVoters
      ensures forall i :: 0 <= i < |voters| ==> fresh(voters[i])
      ensures forall i :: 0 <= i < |voters| ==> voters[i].id == i && voters[i].preferences == samples[i]
      ensures forall i :: 0 <= i < |voters| ==> preferenceMatrix[i] == voters[i].preferences
    {
      candidates := CreateCandidates(numCandidates);
      new;
      voters, preferenceMatrix := CreateSituation(numVoters, samples);
    }

    /** create_situation: one new voter per index 0..num_voters-1, in order,
        each with id i and the i-th shuffle; the matrix lists their ballots. */
    method CreateSituation(numVoters: int, samples: seq<Ballot>) returns (vs: seq<Voter>, matrix: seq<Ballot>)
      requires numVoters <= |samples|
      ensures |vs| == |matrix| == if numVoters < 0 then 0 else numVoters
      ensures forall i :: 0 <= i < |vs| ==> fresh(vs[i])
      ensures forall i :: 0 <= i < |vs| ==> vs[i].id == i && vs[i].preferences == samples[i]
      ensures forall i :: 0 <= i < |vs| ==> matrix[i] == vs[i].preferences
    {
      vs, matrix := [], [];
      var i := 0;
      while i < numVoters
        invariant 0 <= i <= |samples|
        invariant i == 0 || i <= numVoters
        invariant |vs| == |matrix| == i
        invariant forall k :: 0 <= k < i ==> fresh(vs[k])
        invariant forall k :: 0 <= k < i ==> vs[k].id == k && vs[k].preferences == samples[k]
        invariant forall k :: 0 <= k < i ==> matrix[k] == vs[k].preferences
      {
        var voter := new Voter(i, samples[i]);
        vs := vs + [voter];
        matrix := matrix + [voter.preferences];
        i := i + 1;
      }
    }
  }

  /** When every shuffle is a permutation of the candidates, every voter's
      ballot lists each candidate exactly once. */
  lemma ShuffledBallotsAreDistinct(n: int, sample: Ballot)
    requires multiset(sample) == multiset(CreateCandidates(n))
    ensures Distinct(sample)
    ensures forall c :: c in sample <==> c in CreateCandidates(n)
  {
    var cs := CreateCandidates(n);
    CandidatesDistinct(n);
    forall c | c in sample
      ensures c in cs
    {
      assert c in multiset(sample);
    }
    forall c | c in cs
      ensures c in sample
    {
      assert c in multiset(cs);
    }
    forall i, j | 0 <= i < j < |sample|
      ensures sample[i] != sample[j]
    {
      if sample[i] == sample[j] {
        MultiplicityTwo(sample, i, j);
        DistinctMultiplicity(cs, sample[i]);
      }
    }
  }
}
