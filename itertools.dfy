/** The parts of Python's `itertools` the coalition searches use:
    `combinations`, `product` and `chain`, in the order Python yields
    them, and `range`. */
module Itertools {

  /** `list(range(n))`. */
  function Range(n: nat): (r: seq<nat>)
    ensures |r| == n && forall i :: 0 <= i < n ==> r[i] == i
  {
    seq(n, i requires 0 <= i < n => i)
  }

  /** Every list of `cs` with `x` put in front. */
  function Prepend<T>(x: T, cs: seq<seq<T>>): (r: seq<seq<T>>)
    ensures |r| == |cs| && forall i :: 0 <= i < |cs| ==> r[i] == [x] + cs[i]
  {
    seq(|cs|, i requires 0 <= i < |cs| => [x] + cs[i])
  }

  /** `itertools.combinations(s, k)`: the selections of k entries of `s`
      at increasing positions, in lexicographic order of the positions
      (those containing `s[0]` first). */
  function Combinations<T>(s: seq<T>, k: nat): (r: seq<seq<T>>)
    ensures forall i :: 0 <= i < |r| ==> |r[i]| == k
    decreases |s|
  {
    if k == 0 then [[]]
    else if |s| < k then []
    else Prepend(s[0], Combinations(s[1..], k - 1)) + Combinations(s[1..], k)
  }

  /** The binomial coefficient, by Pascal's rule. */
  function Choose(n: nat, k: nat): nat
  {
    if k == 0 then 1
    else if n == 0 then 0
    else Choose(n - 1, k - 1) + Choose(n - 1, k)
  }

  /** `[x + p for x in xs for p in tail]` on lists of lists: each entry of
      `xs` in turn, put in front of every list of `tail`. */
  function PrependEach<T>(xs: seq<T>, tail: seq<seq<T>>): (r: seq<seq<T>>)
    ensures |r| == |xs| * |tail|
    ensures forall i :: 0 <= i < |r| ==> |r[i]| > 0 && r[i][0] in xs && r[i][1..] in tail
  {
    if xs == [] then []
    else
      var head := Prepend(xs[0], tail);
      assert forall i :: 0 <= i < |head| ==> head[i][1..] == tail[i];
      head + PrependEach(xs[1..], tail)
  }

  /** `itertools.product(*lists)`: one entry from each list, the first
      list varying slowest. */
  function Product<T>(lists: seq<seq<T>>): (r: seq<seq<T>>)
    ensures forall i :: 0 <= i < |r| ==> |r[i]| == |lists|
    ensures forall i, j :: 0 <= i < |r| && 0 <= j < |lists| ==> r[i][j] in lists[j]
    decreases |lists|
  {
    if lists == [] then [[]]
    else
      var tail := Product(lists[1..]);
      var r := PrependEach(lists[0], tail);
      assert forall i :: 0 <= i < |r| ==> r[i] == [r[i][0]] + r[i][1..];
      r
  }

  /** The product of the lengths of `lists`. */
  function LengthProduct<T>(lists: seq<seq<T>>): nat
  {
    if lists == [] then 1 else |lists[0]| * LengthProduct(lists[1..])
  }

  // ---------------------------------------------------------------------
  // Properties.

  /** `combinations` yields C(n, k) selections. */
  lemma {:induction false} CombinationsCount<T>(s: seq<T>, k: nat)
    ensures |Combinations(s, k)| == Choose(|s|, k)
    decreases |s|
  {
    if k > 0 {
      if |s| < k {
        ChooseTooMany(|s|, k);
      } else {
        CombinationsCount(s[1..], k - 1);
        CombinationsCount(s[1..], k);
      }
    }
  }

  lemma {:induction false} ChooseTooMany(n: nat, k: nat)
    requires n < k
    ensures Choose(n, k) == 0
  {
    if n > 0 {
      ChooseTooMany(n - 1, k - 1);
      ChooseTooMany(n - 1, k);
    }
  }

  /** Every selection is drawn from `s`. */
  lemma {:induction false} CombinationsFrom<T>(s: seq<T>, k: nat, i: nat)
    requires i < |Combinations(s, k)|
    ensures forall j :: 0 <= j < k ==> Combinations(s, k)[i][j] in s
    decreases |s|
  {
    if k > 0 && |s| >= k {
      var rest := Combinations(s[1..], k - 1);
      var c := Combinations(s, k)[i];
      if i < |rest| {
        CombinationsFrom(s[1..], k - 1, i);
        assert c == [s[0]] + rest[i];
        forall j | 0 <= j < k
          ensures c[j] in s
        {
          if j > 0 {
            assert c[j] == rest[i][j - 1] && rest[i][j - 1] in s[1..];
          }
        }
      } else {
        CombinationsFrom(s[1..], k, i - |rest|);
        assert c == Combinations(s[1..], k)[i - |rest|];
        forall j | 0 <= j < k
          ensures c[j] in s
        {
          assert c[j] in s[1..];
        }
      }
    }
  }

  /** When `s` has no repeats, no selection repeats an entry. */
  lemma {:induction false} CombinationsDistinct<T>(s: seq<T>, k: nat, i: nat)
    requires forall a, b :: 0 <= a < b < |s| ==> s[a] != s[b]
    requires i < |Combinations(s, k)|
    ensures forall a, b :: 0 <= a < b < k ==> Combinations(s, k)[i][a] != Combinations(s, k)[i][b]
    decreases |s|
  {
    if k > 0 && |s| >= k {
      var rest := Combinations(s[1..], k - 1);
      if i < |rest| {
        CombinationsDistinct(s[1..], k - 1, i);
        CombinationsFrom(s[1..], k - 1, i);
        var c := Combinations(s, k)[i];
        assert c == [s[0]] + rest[i];
        forall a, b | 0 <= a < b < k
          ensures c[a] != c[b]
        {
          if a == 0 {
            assert c[b] == rest[i][b - 1] && rest[i][b - 1] in s[1..];
          } else {
            assert c[a] == rest[i][a - 1] && c[b] == rest[i][b - 1];
          }
        }
      } else {
        CombinationsDistinct(s[1..], k, i - |rest|);
      }
    }
  }

  /** `product` yields one tuple per combination of choices. */
  lemma {:induction false} ProductCount<T>(lists: seq<seq<T>>)
    ensures |Product(lists)| == LengthProduct(lists)
    decreases |lists|
  {
    if lists != [] {
      ProductCount(lists[1..]);
    }
  }

  /** Every choice of one entry per list is yielded by `product`. */
  lemma {:induction false} ProductComplete<T>(lists: seq<seq<T>>, c: seq<T>)
    requires |c| == |lists| && forall j :: 0 <= j < |lists| ==> c[j] in lists[j]
    ensures c in Product(lists)
    decreases |lists|
  {
    if lists != [] {
      ProductComplete(lists[1..], c[1..]);
      PrependEachContains(lists[0], Product(lists[1..]), c[0], c[1..]);
      assert c == [c[0]] + c[1..];
    }
  }

  lemma {:induction false} PrependEachContains<T>(xs: seq<T>, tail: seq<seq<T>>, x: T, t: seq<T>)
    requires x in xs && t in tail
    ensures [x] + t in PrependEach(xs, tail)
    decreases |xs|
  {
    if xs[0] == x {
      var k :| 0 <= k < |tail| && tail[k] == t;
      assert Prepend(x, tail)[k] == [x] + t;
    } else {
      PrependEachContains(xs[1..], tail, x, t);
    }
  }

  /** `itertools.chain.from_iterable(blocks)`: the lists `blocks` joined
      in order. */
  function Flatten<T>(blocks: seq<seq<T>>): seq<T>
  {
    if blocks == [] then [] else Flatten(blocks[..|blocks| - 1]) + blocks[|blocks| - 1]
  }

  /** One block more. */
  lemma FlattenNext<T>(blocks: seq<seq<T>>, i: nat)
    requires i < |blocks|
    ensures Flatten(blocks[..i + 1]) == Flatten(blocks[..i]) + blocks[i]
  {
    assert blocks[..i + 1][..i] == blocks[..i];
  }

  /** The blocks joined so far are a prefix of all blocks joined. */
  lemma {:induction false} FlattenPrefix<T>(blocks: seq<seq<T>>, j: nat)
    requires j <= |blocks|
    ensures Flatten(blocks[..j]) <= Flatten(blocks)
    ensures Flatten(blocks) == Flatten(blocks[..j]) + Flatten(blocks)[|Flatten(blocks[..j])|..]
    decreases |blocks|
  {
    if j < |blocks| {
      var n := |blocks| - 1;
      assert blocks[..n][..j] == blocks[..j];
      FlattenPrefix(blocks[..n], j);
    } else {
      assert blocks[..j] == blocks;
    }
  }

  /** An entry of the joined lists is an entry of one of them. */
  lemma {:induction false} FlattenMember<T>(blocks: seq<seq<T>>, x: T)
    ensures x in Flatten(blocks) <==> exists i :: 0 <= i < |blocks| && x in blocks[i]
    decreases |blocks|
  {
    if blocks != [] {
      var n := |blocks| - 1;
      FlattenMember(blocks[..n], x);
      assert forall i :: 0 <= i < n ==> blocks[..n][i] == blocks[i];
    }
  }
}
