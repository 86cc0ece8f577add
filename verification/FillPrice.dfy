/** The price of a fixed size (pmarb/detection/spread.py:68-81): the ladder walked until the order is filled. */
module FillPrice {
  import opened Common
  import opened DepthWalk

  function Min(x: real, y: real): real {
    if x <= y then x else y
  }

  /** `p` ticks for each of `x` shares, added up tick by tick; CostIsProduct says it is their product. */
  function Cost(p: nat, x: real): real {
    if p == 0 then 0.0 else Cost(p - 1, x) + x
  }

  lemma {:induction false} CostIsProduct(p: nat, x: real)
    ensures Cost(p, x) == x * p as real
  {
    if p > 0 {
      CostIsProduct(p - 1, x);
      assert x * (p - 1) as real + x == x * p as real;
    }
  }

  lemma {:induction false} CostAdds(p: nat, x: real, y: real)
    ensures Cost(p, x + y) == Cost(p, x) + Cost(p, y)
  {
    if p > 0 { CostAdds(p - 1, x, y); }
  }

  lemma {:induction false} CostGrows(p: nat, q: nat, x: real)
    requires p <= q && x >= 0.0
    ensures Cost(p, x) <= Cost(q, x)
  {
    if p < q { CostGrows(p, q - 1, x); }
  }

  lemma {:induction false} CostOfNothing(p: nat)
    ensures Cost(p, 0.0) == 0.0
  {
    if p > 0 { CostOfNothing(p - 1); }
  }

  lemma {:induction false} CostOfWhole(p: nat, n: nat)
    ensures Cost(p, n as real) == (p * n) as real
  {
    if p > 0 {
      CostOfWhole(p - 1, n);
      assert (p - 1) * n + n == p * n;
    }
  }

  /** What is left of an order after the first level. */
  function After(l: Ladder, x: real): real
    requires l != []
  {
    x - Min(x, l[0].size)
  }

  /** What the walk pays for `x` shares, as far as the ladder goes. */
  function Spend(l: Ladder, x: real): real {
    if l == [] then 0.0
    else
      var here := Cost(l[0].price, Min(x, l[0].size));
      if After(l, x) <= 0.0 then here else here + Spend(l[1..], After(l, x))
  }

  predicate Filled(l: Ladder, x: real) {
    l != [] && (After(l, x) <= 0.0 || Filled(l[1..], After(l, x)))
  }

  function FillPriceOf(l: Ladder, shares: int): Option<real> {
    if shares > 0 && Filled(l, shares as real) then Some(Spend(l, shares as real) / shares as real) else None
  }

  method ComputeFillPrice(depth: Ladder, shares: int) returns (r: Option<real>)
    ensures r == FillPriceOf(depth, shares)
  {
    if shares <= 0 { return None; }
    var remaining, cost := shares as real, 0.0;
    assert depth[0..] == depth;
    for i := 0 to |depth|
      invariant cost + Spend(depth[i..], remaining) == Spend(depth, shares as real)
      invariant Filled(depth[i..], remaining) <==> Filled(depth, shares as real)
    {
      assert depth[i..][1..] == depth[i + 1..];
      var take := Min(remaining, depth[i].size);
      var here := take * depth[i].price as real;
      CostIsProduct(depth[i].price, take);
      assert depth[i..][0] == depth[i] && here == Cost(depth[i].price, take);
      cost := cost + here;
      remaining := remaining - take;
      if remaining <= 0.0 {
        return Some(cost / shares as real);
      }
    }
    return None;
  }

  // ---- what the price means ----

  ghost predicate Offers(l: Ladder) {
    forall i :: 0 <= i < |l| ==> l[i].size > 0.0
  }

  function Depth(l: Ladder): real {
    if l == [] then 0.0 else l[0].size + Depth(l[1..])
  }

  lemma {:induction false} DepthPositive(l: Ladder)
    requires Offers(l)
    ensures Depth(l) >= 0.0
  {
    if l != [] {
      assert forall i :: 0 <= i < |l[1..]| ==> l[1..][i] == l[i + 1];
      DepthPositive(l[1..]);
    }
  }

  /** A price exists exactly when the whole book is deep enough: all or nothing. */
  lemma {:induction false} FilledWhenDeep(l: Ladder, x: real)
    requires Offers(l) && x > 0.0
    ensures Filled(l, x) <==> Depth(l) >= x
  {
    if l != [] {
      assert forall i :: 0 <= i < |l[1..]| ==> l[1..][i] == l[i + 1];
      DepthPositive(l[1..]);
      if After(l, x) > 0.0 { FilledWhenDeep(l[1..], After(l, x)); }
    }
  }

  /** Some way of buying exactly `x` shares: so many from each level. */
  ghost predicate Buys(l: Ladder, t: seq<real>, x: real) {
    |t| == |l| && Bought(t) == x && forall i :: 0 <= i < |t| ==> 0.0 <= t[i] <= l[i].size
  }

  function Bought(t: seq<real>): real {
    if t == [] then 0.0 else t[0] + Bought(t[1..])
  }

  function Paid(l: Ladder, t: seq<real>): real
    requires |t| == |l|
  {
    if l == [] then 0.0 else Cost(l[0].price, t[0]) + Paid(l[1..], t[1..])
  }

  ghost predicate PricedFrom(l: Ladder, p: nat) {
    forall i :: 0 <= i < |l| ==> l[i].price >= p
  }

  lemma SpendsHere(l: Ladder, x: real)
    requires l != [] && x <= l[0].size
    ensures Spend(l, x) == Cost(l[0].price, x)
  {
  }

  lemma SpendsNothing(l: Ladder)
    requires Offers(l)
    ensures Spend(l, 0.0) == 0.0
  {
    if l != [] {
      SpendsHere(l, 0.0);
      CostOfNothing(l[0].price);
    }
  }

  lemma SpendsOn(l: Ladder, x: real)
    requires l != [] && Offers(l[1..]) && x >= 0.0
    ensures var take := Min(x, l[0].size);
            Spend(l, x) == Cost(l[0].price, take) + Spend(l[1..], x - take)
  {
    if x <= l[0].size { SpendsNothing(l[1..]); }
  }

  /** `d` more shares cost at least the best price each. */
  lemma {:induction false} MoreCosts(l: Ladder, y: real, d: real, p: nat)
    requires Offers(l) && PricedFrom(l, p) && y >= 0.0 && d >= 0.0 && Depth(l) >= y + d
    ensures Spend(l, y + d) >= Spend(l, y) + Cost(p, d)
  {
    if l == [] {
      CostOfNothing(p);
    } else {
      var rest, size, q := l[1..], l[0].size, l[0].price;
      assert forall i :: 0 <= i < |rest| ==> rest[i] == l[i + 1];
      if y + d <= size {
        SpendsHere(l, y);
        SpendsHere(l, y + d);
        CostAdds(q, y, d);
        CostGrows(p, q, d);
      } else if y <= size {
        MoreCosts(rest, 0.0, y + d - size, p);
        MoreAcross(l, y, d, p);
      } else {
        MoreCosts(rest, y - size, d, p);
        assert y - size + d == y + d - size;
        SpendsOn(l, y);
        SpendsOn(l, y + d);
      }
    }
  }

  lemma MoreAcross(l: Ladder, y: real, d: real, p: nat)
    requires l != [] && Offers(l[1..]) && 0.0 <= y <= l[0].size < y + d && l[0].price >= p
    requires Spend(l[1..], 0.0 + (y + d - l[0].size)) >= Spend(l[1..], 0.0) + Cost(p, y + d - l[0].size)
    ensures Spend(l, y + d) >= Spend(l, y) + Cost(p, d)
  {
    var size, q := l[0].size, l[0].price;
    SpendsNothing(l[1..]);
    SpendsHere(l, y);
    SpendsOn(l, y + d);
    assert 0.0 + (y + d - size) == y + d - size;
    CostAdds(q, y, size - y);
    CostGrows(p, q, size - y);
    CostAdds(p, size - y, y + d - size);
    assert y + (size - y) == size && size - y + (y + d - size) == d;
  }

  lemma CheapestStep(l: Ladder, first: real, x: real, paid: real)
    requires l != [] && Offers(l) && Offers(l[1..]) && PricedFrom(l[1..], l[0].price)
    requires 0.0 <= first <= l[0].size && first <= x && Depth(l[1..]) >= x - first
    requires Spend(l[1..], x - first) <= paid
    ensures Spend(l, x) <= Cost(l[0].price, first) + paid
  {
    var take := Min(x, l[0].size);
    SpendsOn(l, x);
    assert x - take + (take - first) == x - first && first + (take - first) == take;
    MoreCosts(l[1..], x - take, take - first, l[0].price);
    CostAdds(l[0].price, first, take - first);
  }

  /** No other way of buying the same shares is cheaper. */
  lemma {:induction false} WalkIsCheapest(l: Ladder, t: seq<real>, x: real)
    requires Ascending(l) && Offers(l) && Buys(l, t, x)
    ensures Spend(l, x) <= Paid(l, t)
  {
    if l != [] {
      var rest := l[1..];
      assert forall i :: 0 <= i < |rest| ==> rest[i] == l[i + 1] && t[1..][i] == t[i + 1];
      assert Buys(rest, t[1..], x - t[0]);
      WalkIsCheapest(rest, t[1..], x - t[0]);
      BoughtInRange(rest, t[1..], x - t[0]);
      CheapestStep(l, t[0], x, Paid(rest, t[1..]));
    }
  }

  lemma {:induction false} BoughtInRange(l: Ladder, t: seq<real>, x: real)
    requires Buys(l, t, x)
    ensures 0.0 <= x <= Depth(l)
  {
    if l != [] {
      assert forall i :: 0 <= i < |l[1..]| ==> l[1..][i] == l[i + 1] && t[1..][i] == t[i + 1];
      BoughtInRange(l[1..], t[1..], x - t[0]);
    }
  }

  // ---- the two operations on one ladder ----

  ghost predicate WholeSizes(l: Ladder) {
    forall i :: 0 <= i < |l| ==> l[i].size >= 0.0 && l[i].size == l[i].size.Floor as real
  }

  lemma {:induction false} SumJoins(a: seq<int>, b: seq<int>, n: nat)
    requires n <= |a| + |b|
    ensures Sum(a + b, n) == if n <= |a| then Sum(a, n) else Sum(a, |a|) + Sum(b, n - |a|)
  {
    if n > 0 { SumJoins(a, b, n - 1); }
  }

  lemma {:induction false} RepeatSum(p: Price, k: nat, n: nat)
    requires n <= k
    ensures |Repeat(p, k)| == k && Sum(Repeat(p, k), n) == p * n
  {
    RepeatIsFlat(p, k);
    if n > 0 {
      RepeatSum(p, k, n - 1);
      assert p * (n - 1) + p == p * n;
    }
  }

  lemma {:induction false} SplitShares(l: Ladder, n: nat)
    requires l != [] && n <= |Shares(l)|
    ensures |Shares(l)| == Whole(l[0].size) + |Shares(l[1..])|
    ensures var k := Whole(l[0].size);
            Sum(Shares(l), n) == if n <= k then l[0].price * n else l[0].price * k + Sum(Shares(l[1..]), n - k)
  {
    var k, p, rest := Whole(l[0].size), l[0].price, l[1..];
    RepeatSum(p, k, if n <= k then n else k);
    SumJoins(Repeat(p, k), Shares(rest), n);
    assert Shares(l) == Repeat(p, k) + Shares(rest);
  }

  /** On whole sizes the detector's walk, share by share, spends what a fixed-size order would. */
  lemma {:induction false} WalksAgree(l: Ladder, n: nat)
    requires WholeSizes(l) && 0 < n <= |Shares(l)|
    ensures Filled(l, n as real) && Spend(l, n as real) == Sum(Shares(l), n) as real
  {
    var k, rest := Whole(l[0].size), l[1..];
    assert l[0].size == k as real;
    assert forall i :: 0 <= i < |rest| ==> rest[i] == l[i + 1];
    SplitShares(l, n);
    if n <= k {
      SpendsHere(l, n as real);
      CostOfWhole(l[0].price, n);
    } else {
      WalksAgree(rest, n - k);
      CostOfWhole(l[0].price, k);
      assert n as real - k as real == (n - k) as real;
    }
  }
}
