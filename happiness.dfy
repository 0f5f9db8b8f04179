/** The winner-based happiness helpers of tva/happiness.py that are exact
    rational formulas: normalised-linear (Borda) happiness and vote-for-two
    happiness, both read off the winner's 1-indexed rank on the voter's own
    ballot. */
module Happiness {
  import opened Common
  import Schemes

  /** `preferences.index(winner) + 1`: the winner's 1-indexed rank, or
      ValueError when the winner is not on the ballot. */
  function Rank(prefs: Ballot, winner: Candidate): (r: Result<nat>)
    ensures r.Err? <==> winner !in prefs
    ensures r.Err? ==> r == Err(ValueError)
    ensures r.Ok? ==> 1 <= r.value <= |prefs| && prefs[r.value - 1] == winner
    ensures r.Ok? ==> winner !in prefs[..r.value - 1]
  {
    match IndexOf(prefs, winner)
    case None => Err(ValueError)
    case Some(k) => Ok(k + 1)
  }

  /** __borda_happiness: `(c - r) / (c - 1)` with c the ballot length and r
      the winner's rank, or 1.0 when the ballot has at most one entry. Python
      `/` is true division, so the value is a rational number. */
  function BordaHappiness(prefs: Ballot, winner: Candidate): (h: Result<real>)
    ensures h.Err? <==> winner !in prefs
    ensures h.Err? ==> h == Err(ValueError)
    ensures h.Ok? ==> 0.0 <= h.value <= 1.0
    ensures h.Ok? && prefs[0] == winner ==> h.value == 1.0
    ensures h.Ok? && |prefs| > 1 && winner !in prefs[..|prefs| - 1] ==> h.value == 0.0
  {
    var c := |prefs|;
    match Rank(prefs, winner)
    case Err(e) => Err(e)
    case Ok(r) =>
      assert r > 1 ==> prefs[..r - 1][0] == prefs[0];
      if c > 1 then
        UnitFraction((c - r) as real, (c - 1) as real);
        assert prefs[0] == winner ==> r == 1 && (c - r) as real == (c - 1) as real;
        Ok((c - r) as real / (c - 1) as real)
      else Ok(1.0)
  }

  /** __voting_for_two_happiness: 0.7 when the winner is the top choice,
      0.3 when it is second on a ballot of two or more entries, 0.0
      otherwise; `preferences[0]` raises IndexError on an empty ballot. */
  function VoteForTwoHappiness(prefs: Ballot, winner: Candidate): (h: Result<real>)
    ensures h.Err? <==> prefs == []
    ensures h.Err? ==> h == Err(IndexError)
    ensures h.Ok? ==> h.value == 0.7 || h.value == 0.3 || h.value == 0.0
  {
    if |prefs| == 0 then Err(IndexError)
    else if prefs[0] == winner then Ok(0.7)
    else if |prefs| > 1 && prefs[1] == winner then Ok(0.3)
    else Ok(0.0)
  }

  lemma UnitFraction(a: real, d: real)
    requires 0.0 <= a <= d && d > 0.0
    ensures 0.0 <= a / d <= 1.0
  {
    var q := a / d;
    assert q * d == a;
  }

  // ---------------------------------------------------------------------
  // Properties.

  /** On a ballot without repeats the rank of the entry at position i is i+1. */
  lemma RankOfPosition(prefs: Ballot, i: nat)
    requires Distinct(prefs) && i < |prefs|
    ensures Rank(prefs, prefs[i]) == Ok(i + 1)
  {
  }

  /** Linear happiness strictly decreases as the winner sits lower on a
      ballot without repeats (of at least two entries). */
  lemma {:induction false} BordaHappinessDecreasesWithRank(prefs: Ballot, i: nat, j: nat)
    requires Distinct(prefs) && i < j < |prefs|
    ensures BordaHappiness(prefs, prefs[i]).Ok? && BordaHappiness(prefs, prefs[j]).Ok?
    ensures BordaHappiness(prefs, prefs[i]).value > BordaHappiness(prefs, prefs[j]).value
  {
    RankOfPosition(prefs, i);
    RankOfPosition(prefs, j);
    var d := (|prefs| - 1) as real;
    assert d > 0.0;
    assert BordaHappiness(prefs, prefs[i]).value == (|prefs| - 1 - i) as real / d;
    assert BordaHappiness(prefs, prefs[j]).value == (|prefs| - 1 - j) as real / d;
    assert (|prefs| - 1 - i) as real > (|prefs| - 1 - j) as real;
    DivideMonotone((|prefs| - 1 - i) as real, (|prefs| - 1 - j) as real, d);
  }

  lemma DivideMonotone(a: real, b: real, d: real)
    requires d > 0.0 && a > b
    ensures a / d > b / d
  {
    assert a / d - b / d == (a - b) / d;
  }

  /** On a ballot without repeats, linear happiness of the entry at
      position k is (c-1-k)/(c-1). */
  lemma BordaHappinessAt(prefs: Ballot, k: nat)
    requires Distinct(prefs) && k < |prefs| && |prefs| > 1
    ensures BordaHappiness(prefs, prefs[k]) == Ok((|prefs| - 1 - k) as real / (|prefs| - 1) as real)
    ensures BordaHappiness(prefs, prefs[k]).value * (|prefs| - 1) as real == (|prefs| - 1 - k) as real
  {
    RankOfPosition(prefs, k);
    DivideThenMultiply(BordaHappiness(prefs, prefs[k]).value, (|prefs| - 1 - k) as real, (|prefs| - 1) as real);
  }

  /** Linear happiness is the winner's Borda points on the voter's own
      ballot (with m the ballot length), normalised by the top score m-1. */
  lemma BordaHappinessIsNormalisedPoints(prefs: Ballot, k: nat)
    requires Distinct(prefs) && k < |prefs| && |prefs| > 1
    ensures BordaHappiness(prefs, prefs[k]).Ok?
    ensures BordaHappiness(prefs, prefs[k]).value * (|prefs| - 1) as real
              == Schemes.BordaPoints(|prefs|, prefs, prefs[k]) as real
  {
    BordaHappinessAt(prefs, k);
    Schemes.BordaPointsOfRank(|prefs|, prefs, prefs[k]);
    Schemes.FirstIndexOfDistinct(prefs, k);
    assert Schemes.BordaPoints(|prefs|, prefs, prefs[k]) == |prefs| - 1 - k;
  }

  lemma DivideThenMultiply(v: real, a: real, d: real)
    requires d > 0.0 && v == a / d
    ensures v * d == a
  {
  }

  /** Vote-for-two happiness read through the rank: 0.7 for rank 1, 0.3 for
      rank 2, 0.0 for a lower rank or a winner not on the ballot. */
  lemma VoteForTwoByRank(prefs: Ballot, winner: Candidate)
    requires prefs != []
    ensures VoteForTwoHappiness(prefs, winner) ==
              if Rank(prefs, winner) == Ok(1) then Ok(0.7)
              else if Rank(prefs, winner) == Ok(2) then Ok(0.3)
              else Ok(0.0)
  {
    var r := Rank(prefs, winner);
    if prefs[0] == winner {
      assert r.Ok?;
    } else if |prefs| > 1 && prefs[1] == winner {
      assert r.Ok?;
    } else if r.Ok? {
      assert r.value != 1 && r.value != 2;
    }
  }

  /** The voter is happy under vote-for-two exactly when its ballot gives
      the winner a vote-for-two point. */
  lemma VoteForTwoHappyIffCounted(prefs: Ballot, winner: Candidate)
    requires prefs != []
    ensures VoteForTwoHappiness(prefs, winner).value > 0.0 <==>
              Schemes.RefPoints(VoteForTwo, 0, prefs, winner) > 0
  {
  }
}
