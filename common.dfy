/** Shared vocabulary of the tactical-voting analyser: candidates, ballots,
    the enumerations of tva/enums.py, Python's exceptions as values, and a
    few sequence helpers used by every other module. */
module Common {

  /** A candidate is one upper-case letter ('A'..'Z'), as produced by
      Situation.create_candidates; '?' is the placeholder of partial ballots. */
  type Candidate = char

  /** A ballot (a voter's preference list), most preferred first. */
  type Ballot = seq<Candidate>

  /** Voter ids are the positions 0..n-1 assigned by create_situation. */
  type VoterId = nat

  /** The Python exceptions the modelled code can raise. */
  datatype Raised = IndexError | ValueError | KeyError | TypeError | ZeroDivisionError | StopIteration

  /** A computation that either returns a value or raises. */
  datatype Result<T> = Ok(value: T) | Err(raised: Raised)

  datatype Option<T> = None | Some(value: T)

  /** tva/enums.py VotingScheme. */
  datatype VotingScheme = Plurality | VoteForTwo | AntiPlurality | Borda

  /** tva/enums.py HappinessFunc. */
  datatype HappinessFunc = Log | Exp | Linear | KendallTau | WeightedPositional

  /** tva/enums.py StrategyType. */
  datatype StrategyType = Compromising | Burying | Bullet

  /** The metrics that need the full outcome ranking rather than the winner. */
  predicate IsRankedMetric(h: HappinessFunc)
  {
    h == KendallTau || h == WeightedPositional
  }

  /** No element occurs twice. */
  predicate Distinct<T(==)>(s: seq<T>)
  {
    forall i, j :: 0 <= i < j < |s| ==> s[i] != s[j]
  }

  /** Python's `list.index`: the position of the first occurrence of `x`. */
  function IndexOf<T(==)>(s: seq<T>, x: T): (r: Option<nat>)
    ensures r.Some? <==> x in s
    ensures r.Some? ==> r.value < |s| && s[r.value] == x && x !in s[..r.value]
  {
    if |s| == 0 then None
    else if s[0] == x then Some(0)
    else match IndexOf(s[1..], x)
      case None => None
      case Some(k) => assert s[1..][..k] == s[1..k + 1]; Some(k + 1)
  }

  /** The first index of an element known to occur. */
  function FirstIndex<T(==)>(s: seq<T>, x: T): (k: nat)
    requires x in s
    ensures k < |s| && s[k] == x && x !in s[..k]
  {
    IndexOf(s, x).value
  }

  /** Exchange the entries at positions `i` and `j` (Python's
      `a[i], a[j] = a[j], a[i]`). */
  function Swap<T>(s: seq<T>, i: nat, j: nat): (r: seq<T>)
    requires i < |s| && j < |s|
    ensures |r| == |s| && r[i] == s[j] && r[j] == s[i]
    ensures forall k :: 0 <= k < |s| && k != i && k != j ==> r[k] == s[k]
  {
    s[i := s[j]][j := s[i]]
  }

  /** The tail of a duplicate-free sequence is duplicate-free and lacks
      the head; membership splits into head and tail. */
  lemma DistinctTail<T>(s: seq<T>)
    requires Distinct(s) && s != []
    ensures Distinct(s[1..]) && s[0] !in s[1..]
    ensures forall x :: x in s <==> x == s[0] || x in s[1..]
  {
    assert s == [s[0]] + s[1..];
    forall i, j | 0 <= i < j < |s[1..]|
      ensures s[1..][i] != s[1..][j]
    {
      assert s[1..][i] == s[i + 1] && s[1..][j] == s[j + 1];
    }
  }

  /** Membership in a list is membership in all but its last entry, or
      being that entry. */
  lemma InSnoc<T>(s: seq<T>, x: T)
    requires s != []
    ensures x in s <==> x in s[..|s| - 1] || x == s[|s| - 1]
  {
    assert s == s[..|s| - 1] + [s[|s| - 1]];
  }

  /** An exchange only reorders the entries. */
  lemma SwapPermutes<T>(s: seq<T>, i: nat, j: nat)
    requires i < |s| && j < |s|
    ensures multiset(Swap(s, i, j)) == multiset(s)
  {
  }

  /** Python's `sum` over reals. */
  function SumReal(s: seq<real>): real
  {
    if s == [] then 0.0 else SumReal(s[..|s| - 1]) + s[|s| - 1]
  }

  /** Number of occurrences of `x` in `s`. */
  function Count<T(==)>(s: seq<T>, x: T): nat
  {
    if s == [] then 0 else Count(s[..|s| - 1], x) + (if s[|s| - 1] == x then 1 else 0)
  }

  /** Taking the last element of `a` and a matching element out of a
      permutation `b` of `a` leaves permutations of each other. */
  lemma RemoveMatched<T>(a: seq<T>, b: seq<T>, j: nat)
    requires multiset(a) == multiset(b) && |a| > 0
    requires j < |b| && b[j] == a[|a| - 1]
    ensures multiset(a[..|a| - 1]) == multiset(b[..j] + b[j + 1..])
  {
    var x := a[|a| - 1];
    var a', b1, b2 := a[..|a| - 1], b[..j], b[j + 1..];
    assert a == a' + [x];
    assert b == b1 + [x] + b2;
    calc {
      multiset(a') + multiset{x};
      multiset(a);
      multiset(b);
      multiset(b1) + multiset{x} + multiset(b2);
      multiset(b1 + b2) + multiset{x};
    }
    assert multiset(a') == multiset(a') + multiset{x} - multiset{x};
    assert multiset(b1 + b2) == multiset(b1 + b2) + multiset{x} - multiset{x};
  }

  /** An element at two positions occurs at least twice. */
  lemma MultiplicityTwo<T>(s: seq<T>, i: nat, j: nat)
    requires i < j < |s| && s[i] == s[j]
    ensures multiset(s)[s[i]] >= 2
  {
    assert s == s[..i] + [s[i]] + s[i + 1..j] + [s[j]] + s[j + 1..];
  }

  /** In a sequence without repeats every element occurs at most once. */
  lemma {:induction false} DistinctMultiplicity<T>(s: seq<T>, c: T)
    requires Distinct(s)
    ensures multiset(s)[c] <= 1
    decreases |s|
  {
    if s != [] {
      var init := s[..|s| - 1];
      assert s == init + [s[|s| - 1]];
      DistinctMultiplicity(init, c);
      if s[|s| - 1] == c {
        assert c !in init;
      }
    }
  }

  /** `(n / d) * 100` in floating point, taken as exact. */
  function Percentage(n: nat, d: int): real
    requires d != 0
  {
    n as real / d as real * 100.0
  }

  /** `a / d * 100` and `b / d * 100` keep the order of `a` and `b`, from 0
      up to 100. */
  lemma PercentOrder(a: nat, b: nat, d: nat)
    requires 0 < d && a <= b <= d
    ensures 0.0 <= Percentage(a, d) <= Percentage(b, d) <= 100.0
  {
    var x, y := a as real / d as real, b as real / d as real;
    assert x * d as real == a as real;
    assert y * d as real == b as real;
    Scaled(x, y, a as real, b as real, d as real);
    Scaled(y, 1.0, b as real, d as real, d as real);
    Scaled(0.0, x, 0.0, a as real, d as real);
  }

  lemma Scaled(x: real, y: real, a: real, b: real, d: real)
    requires d > 0.0 && x * d == a && y * d == b && a <= b
    ensures x <= y
  {
    assert (y - x) * d == b - a;
  }
}
