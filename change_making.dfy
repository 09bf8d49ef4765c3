/** Change making for the vending machine: the coin arithmetic, the model of Python's
    `sorted(values, reverse=True)` used to order the denominations, and the greedy
    loop of the change-counting state, with its optimality for the Canadian coins. */
module ChangeMaking {

  /** Sum of a sequence of coin values. */
  function Sum(s: seq<int>): int
  {
    if s == [] then 0 else s[0] + Sum(s[1..])
  }

  lemma {:induction false} SumConcat(a: seq<int>, b: seq<int>)
    ensures Sum(a + b) == Sum(a) + Sum(b)
  {
    if a == [] {
      assert a + b == b;
    } else {
      assert (a + b)[1..] == a[1..] + b;
      SumConcat(a[1..], b);
    }
  }

  /** Every pair of positions is in non-increasing order. */
  ghost predicate NonIncreasing(s: seq<int>)
  {
    forall i, j :: 0 <= i < j < |s| ==> s[i] >= s[j]
  }

  /** Insertion of one value into a non-increasing sequence. */
  function Insert(x: int, s: seq<int>): (r: seq<int>)
    ensures multiset(r) == multiset(s) + multiset{x}
    ensures |r| == |s| + 1
    ensures r[0] == x || (s != [] && r[0] == s[0])
  {
    if s == [] || x >= s[0] then [x] + s
    else
      assert s == [s[0]] + s[1..];
      [s[0]] + Insert(x, s[1..])
  }

  lemma {:induction false} InsertNonIncreasing(x: int, s: seq<int>)
    requires NonIncreasing(s)
    ensures NonIncreasing(Insert(x, s))
  {
    if s != [] && x < s[0] {
      var t := Insert(x, s[1..]);
      InsertNonIncreasing(x, s[1..]);
      assert Insert(x, s) == [s[0]] + t;
      assert s[0] >= t[0];
    }
  }

  /** Python's `sorted(values, reverse=True)` on integers: a non-increasing
      permutation of its argument. */
  function SortDescending(s: seq<int>): (r: seq<int>)
    ensures NonIncreasing(r)
    ensures multiset(r) == multiset(s)
  {
    if s == [] then []
    else
      assert s == [s[0]] + s[1..];
      InsertNonIncreasing(s[0], SortDescending(s[1..]));
      Insert(s[0], SortDescending(s[1..]))
  }

  /** `s` in reverse order. */
  function Reversed(s: seq<int>): (r: seq<int>)
    ensures |r| == |s|
    ensures forall i :: 0 <= i < |s| ==> r[i] == s[|s| - 1 - i]
  {
    if s == [] then [] else Reversed(s[1..]) + [s[0]]
  }

  /** A value smaller than every element is inserted at the end. */
  lemma {:induction false} InsertLast(x: int, s: seq<int>)
    requires forall k :: 0 <= k < |s| ==> s[k] > x
    ensures Insert(x, s) == s + [x]
  {
    if s != [] {
      InsertLast(x, s[1..]);
      assert s == [s[0]] + s[1..];
    }
  }

  /** Sorting a strictly increasing sequence in descending order reverses it. */
  lemma {:induction false} SortIncreasing(s: seq<int>)
    requires forall i, j :: 0 <= i < j < |s| ==> s[i] < s[j]
    ensures SortDescending(s) == Reversed(s)
  {
    if s != [] {
      SortIncreasing(s[1..]);
      InsertLast(s[0], Reversed(s[1..]));
    }
  }

  /** The inner `while change_due >= coin` loop of the change-counting state:
      the coins returned and the amount still due afterwards. */
  function PayOut(due: int, coin: int): (r: (seq<int>, int))
    requires coin > 0
    ensures due >= 0 ==> 0 <= r.1 < coin
    ensures r.1 <= due
    decreases due
  {
    if due < coin then ([], due)
    else
      var rest := PayOut(due - coin, coin);
      ([coin] + rest.0, rest.1)
  }

  /** The inner loop returns only `coin`, and what it returns plus what is left is
      what was due. */
  lemma {:induction false} PayOutPays(due: int, coin: int)
    requires coin > 0
    ensures forall k :: 0 <= k < |PayOut(due, coin).0| ==> PayOut(due, coin).0[k] == coin
    ensures Sum(PayOut(due, coin).0) + PayOut(due, coin).1 == due
    decreases due
  {
    if due >= coin {
      PayOutPays(due - coin, coin);
    }
  }

  /** The whole `for coin_index ...` loop over the denominations in order: the
      coins returned (in the order they are emitted) and the amount left due. */
  function Greedy(due: int, coins: seq<int>): (r: (seq<int>, int))
    requires forall k :: 0 <= k < |coins| ==> coins[k] > 0
    ensures Sum(r.0) + r.1 == due
    ensures r.1 <= due
    ensures due >= 0 ==> r.1 >= 0
    ensures due >= 0 && coins != [] ==> r.1 < coins[|coins| - 1]
    decreases |coins|
  {
    if coins == [] then ([], due)
    else
      var prev := Greedy(due, coins[..|coins| - 1]);
      var more := PayOut(prev.1, coins[|coins| - 1]);
      PayOutPays(prev.1, coins[|coins| - 1]);
      SumConcat(prev.0, more.0);
      (prev.0 + more.0, more.1)
  }

  /** Every coin the greedy loop returns is one of the denominations. */
  lemma {:induction false} GreedyUsesDenominations(due: int, coins: seq<int>)
    requires forall k :: 0 <= k < |coins| ==> coins[k] > 0
    ensures forall k :: 0 <= k < |Greedy(due, coins).0| ==> Greedy(due, coins).0[k] in coins
    decreases |coins|
  {
    if coins != [] {
      var init := coins[..|coins| - 1];
      GreedyUsesDenominations(due, init);
      var prev := Greedy(due, init);
      var more := PayOut(prev.1, coins[|coins| - 1]);
      PayOutPays(prev.1, coins[|coins| - 1]);
      assert Greedy(due, coins).0 == prev.0 + more.0;
      forall k | 0 <= k < |prev.0| ensures prev.0[k] in coins {
        var j :| 0 <= j < |init| && init[j] == prev.0[k];
        assert coins[j] == prev.0[k];
      }
    }
  }

  /** With the denominations in descending order the coins come out largest first. */
  lemma {:induction false} GreedyNonIncreasing(due: int, coins: seq<int>)
    requires forall k :: 0 <= k < |coins| ==> coins[k] > 0
    requires NonIncreasing(coins)
    ensures NonIncreasing(Greedy(due, coins).0)
    decreases |coins|
  {
    if coins != [] {
      var init := coins[..|coins| - 1];
      var last := coins[|coins| - 1];
      GreedyNonIncreasing(due, init);
      GreedyUsesDenominations(due, init);
      var prev := Greedy(due, init);
      var more := PayOut(prev.1, last);
      PayOutPays(prev.1, last);
      assert Greedy(due, coins).0 == prev.0 + more.0;
      forall k | 0 <= k < |prev.0| ensures prev.0[k] >= last {
        var j :| 0 <= j < |init| && init[j] == prev.0[k];
        assert coins[j] == prev.0[k];
      }
      AppendSmaller(prev.0, more.0, last);
    }
  }

  /** Appending copies of a value no larger than any element keeps the order. */
  lemma AppendSmaller(a: seq<int>, b: seq<int>, m: int)
    requires NonIncreasing(a)
    requires forall k :: 0 <= k < |a| ==> a[k] >= m
    requires forall k :: 0 <= k < |b| ==> b[k] == m
    ensures NonIncreasing(a + b)
  {
  }

  /** The Canadian denominations in descending order, as the vending machine holds them. */
  const Denominations: seq<int> := [200, 100, 25, 10, 5]

  predicate IsDenomination(v: int)
  {
    v == 200 || v == 100 || v == 25 || v == 10 || v == 5
  }

  /** Number of occurrences of `v` in `s`. */
  function Count(s: seq<int>, v: int): nat
  {
    if s == [] then 0 else (if s[0] == v then 1 else 0) + Count(s[1..], v)
  }

  lemma {:induction false} Decompose(s: seq<int>)
    requires forall k :: 0 <= k < |s| ==> IsDenomination(s[k])
    ensures Sum(s) == 200 * Count(s, 200) + 100 * Count(s, 100) + 25 * Count(s, 25)
                      + 10 * Count(s, 10) + 5 * Count(s, 5)
    ensures |s| == Count(s, 200) + Count(s, 100) + Count(s, 25) + Count(s, 10) + Count(s, 5)
  {
    if s != [] {
      Decompose(s[1..]);
    }
  }

  /** Paying `coin * q + r` with `r < coin` returns exactly `q` coins and leaves `r`. */
  lemma {:induction false} PayOutExact(coin: int, q: nat, r: int)
    requires coin > 0 && 0 <= r < coin
    ensures |PayOut(coin * q + r, coin).0| == q
    ensures PayOut(coin * q + r, coin).1 == r
    decreases q
  {
    if q > 0 {
      assert coin * q + r - coin == coin * (q - 1) + r;
      PayOutExact(coin, q - 1, r);
    }
  }

  /** Appending one denomination runs one more inner loop on what is still due. */
  lemma GreedySnoc(due: int, coins: seq<int>, c: int)
    requires forall k :: 0 <= k < |coins| ==> coins[k] > 0
    requires c > 0
    ensures var prev := Greedy(due, coins);
            Greedy(due, coins + [c]) == (prev.0 + PayOut(prev.1, c).0, PayOut(prev.1, c).1)
  {
    assert (coins + [c])[..|coins|] == coins;
  }

  /** One more denomination `c`: if `c * q + r` (with `r < c`) is still due, the
      greedy loop returns `q` more coins and leaves `r`. */
  lemma GreedyStage(due: int, coins: seq<int>, c: int, q: nat, r: int)
    requires forall k :: 0 <= k < |coins| ==> coins[k] > 0
    requires c > 0 && 0 <= r < c
    requires Greedy(due, coins).1 == c * q + r
    ensures Greedy(due, coins + [c]).1 == r
    ensures |Greedy(due, coins + [c]).0| == |Greedy(due, coins).0| + q
  {
    GreedySnoc(due, coins, c);
    PayOutExact(c, q, r);
  }

  /** For counts that no exchange can improve, the greedy change uses exactly those counts. */
  lemma GreedyOnReduced(a: nat, b: nat, c: nat, d: nat, e: nat, n: int)
    requires n == 200 * a + 100 * b + 25 * c + 10 * d + 5 * e
    requires b <= 1 && c <= 3 && d <= 2 && e <= 1 && !(d == 2 && e == 1)
    ensures |Greedy(n, Denominations).0| == a + b + c + d + e
  {
    var s3: seq<int> := [200, 100, 25];
    GreedyLargeCoins(a, b, c, 10 * d + 5 * e, n);
    var s4 := s3 + [10];
    assert s4 + [5] == Denominations;
    GreedyStage(n, s3, 10, d, 5 * e);
    GreedyStage(n, s4, 5, e, 0);
  }

  /** The first three stages of `GreedyOnReduced`: with `r < 25` left after the
      dollar coins and quarters, the greedy loop returns `a + b + c` of them. */
  lemma GreedyLargeCoins(a: nat, b: nat, c: nat, r: int, n: int)
    requires n == 200 * a + 100 * b + 25 * c + r
    requires b <= 1 && c <= 3 && 0 <= r < 25
    ensures Greedy(n, [200, 100, 25]).1 == r
    ensures |Greedy(n, [200, 100, 25]).0| == a + b + c
  {
    var s0: seq<int> := [];
    var s1 := s0 + [200];
    var s2 := s1 + [100];
    assert s2 + [25] == [200, 100, 25];
    GreedyStage(n, s0, 200, a, 100 * b + 25 * c + r);
    GreedyStage(n, s1, 100, b, 25 * c + r);
    GreedyStage(n, s2, 25, c, r);
  }

  /** For coin counts a..e (of 200, 100, 25, 10, 5) with total `n`, the greedy change
      for `n` never uses more coins than they do. Each step trades coins for fewer
      coins of the same total until no trade applies. */
  lemma {:induction false} GreedyBeatsCounts(a: nat, b: nat, c: nat, d: nat, e: nat, n: int)
    requires n == 200 * a + 100 * b + 25 * c + 10 * d + 5 * e
    ensures |Greedy(n, Denominations).0| <= a + b + c + d + e
    decreases a + b + c + d + e
  {
    if b >= 2 {
      GreedyBeatsCounts(a + 1, b - 2, c, d, e, n);
    } else if c >= 4 {
      GreedyBeatsCounts(a, b + 1, c - 4, d, e, n);
    } else if e >= 2 {
      GreedyBeatsCounts(a, b, c, d + 1, e - 2, n);
    } else if d >= 3 {
      GreedyBeatsCounts(a, b, c + 1, d - 3, e + 1, n);
    } else if d == 2 && e == 1 {
      GreedyBeatsCounts(a, b, c + 1, 0, 0, n);
    } else {
      GreedyOnReduced(a, b, c, d, e, n);
    }
  }

  /** The greedy change pays any total of Canadian coins in full, with the fewest
      coins: no handful of Canadian coins with the same total is smaller. */
  lemma GreedyIsOptimal(s: seq<int>)
    requires forall k :: 0 <= k < |s| ==> IsDenomination(s[k])
    ensures Greedy(Sum(s), Denominations).1 == 0
    ensures |Greedy(Sum(s), Denominations).0| <= |s|
  {
    GreedyPaysCoinTotal(s);
    Decompose(s);
    GreedyBeatsCounts(Count(s, 200), Count(s, 100), Count(s, 25), Count(s, 10), Count(s, 5), Sum(s));
  }

  /** A total of Canadian coins is a non-negative multiple of 5. */
  lemma CoinTotal(s: seq<int>)
    requires forall k :: 0 <= k < |s| ==> IsDenomination(s[k])
    ensures Sum(s) >= 0 && Sum(s) % 5 == 0
  {
    assert forall k :: 0 <= k < |s| ==> s[k] in Denominations;
    SumOfMultiplesOf5(s, Denominations);
    SumNonNegative(s);
  }

  /** Coins never add up to a negative amount. */
  lemma {:induction false} SumNonNegative(s: seq<int>)
    requires forall k :: 0 <= k < |s| ==> s[k] in Denominations
    ensures Sum(s) >= 0
  {
    if s != [] {
      SumNonNegative(s[1..]);
    }
  }

  lemma GreedyPaysCoinTotal(s: seq<int>)
    requires forall k :: 0 <= k < |s| ==> IsDenomination(s[k])
    ensures Greedy(Sum(s), Denominations).1 == 0
  {
    CoinTotal(s);
    GreedyPaysDenominations(Sum(s));
  }

  lemma GreedyPaysDenominations(due: int)
    requires due >= 0 && due % 5 == 0
    ensures Greedy(due, Denominations).1 == 0
  {
    GreedyPaysMultiplesOf5(due, Denominations);
  }

  lemma {:induction false} SumOfMultiplesOf5(s: seq<int>, coins: seq<int>)
    requires forall k :: 0 <= k < |coins| ==> coins[k] % 5 == 0
    requires forall k :: 0 <= k < |s| ==> s[k] in coins
    ensures Sum(s) % 5 == 0
  {
    if s != [] {
      SumOfMultiplesOf5(s[1..], coins);
    }
  }

  /** When every denomination is a multiple of 5 and the smallest is 5, any
      non-negative multiple of 5 is paid out in full by the greedy change. */
  lemma GreedyPaysMultiplesOf5(due: int, coins: seq<int>)
    requires forall k :: 0 <= k < |coins| ==> coins[k] > 0 && coins[k] % 5 == 0
    requires coins != [] && coins[|coins| - 1] == 5
    requires due >= 0 && due % 5 == 0
    ensures Greedy(due, coins).1 == 0
  {
    var r := Greedy(due, coins);
    GreedyUsesDenominations(due, coins);
    SumOfMultiplesOf5(r.0, coins);
    RemainderOfMultiples(Sum(r.0), r.1, due);
  }

  lemma RemainderOfMultiples(paid: int, rest: int, due: int)
    requires paid + rest == due && paid % 5 == 0 && due % 5 == 0 && 0 <= rest < 5
    ensures rest == 0
  {
    assert (paid / 5 + rest / 5) * 5 + rest % 5 == due;
  }
}
