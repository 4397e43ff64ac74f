/** Bounds on tentative costs.  Whatever order tiles are relaxed in, a finite tentative cost was once the cost of a
    trail that visits no tile twice, so it stays far below the 64-bit sentinel. */
module Trails {
  import opened FixedPoint

  /** `p` is a duplicate-free trail ending in `u` and `k` its running costs; no tile on it is worse off than when
      the trail passed through. */
  ghost predicate Trail(g: seq<nat>, u: nat, p: seq<nat>, k: seq<nat>) {
    && 0 < |p| == |k| && k[0] == 0
    && p[|p| - 1] == u && u < |g| && k[|k| - 1] == g[u]
    && (forall i | 0 <= i < |p| :: p[i] < |g| && g[p[i]] <= k[i])
    && (forall i, j | 0 <= i < j < |p| :: p[i] != p[j])
    && (forall i | 0 < i < |k| :: k[i - 1] < k[i] <= k[i - 1] + U32_MAX)
  }

  ghost predicate Trailed(g: seq<nat>) {
    forall u | 0 <= u < |g| && g[u] < G_INFINITE :: exists p, k :: Trail(g, u, p, k)
  }

  lemma StartTrailed(g: seq<nat>, start: nat)
    requires start < |g| && g[start] == 0
    ensures Trail(g, start, [start], [0])
  {
  }

  /** The cost of `steps` full-price steps. */
  function FullPrice(steps: nat): nat { steps * 0xFFFF_FFFF }

  lemma {:induction false} RunningCost(k: seq<nat>, i: nat)
    requires i < |k| && k[0] == 0
    requires forall i | 0 < i < |k| :: k[i] <= k[i - 1] + U32_MAX
    ensures k[i] <= FullPrice(i)
  {
    if i > 0 {
      RunningCost(k, i - 1);
    }
  }

  /** Distinct numbers below n are at most n many. */
  lemma {:induction false} Pigeonhole(p: seq<nat>, n: nat)
    requires forall i | 0 <= i < |p| :: p[i] < n
    requires forall i, j | 0 <= i < j < |p| :: p[i] != p[j]
    ensures |p| <= n
  {
    CountDistinct(p);
    SetBelow(set i | 0 <= i < |p| :: p[i], n);
  }

  lemma {:induction false} SetBelow(s: set<nat>, n: nat)
    requires forall x | x in s :: x < n
    ensures |s| <= n
  {
    if n > 0 {
      SetBelow(s - {n - 1}, n - 1);
    } else {
      assert s == {};
    }
  }

  lemma {:induction false} CountDistinct(p: seq<nat>)
    requires forall i, j | 0 <= i < j < |p| :: p[i] != p[j]
    ensures |set i | 0 <= i < |p| :: p[i]| == |p|
  {
    if |p| > 0 {
      var q := p[..|p| - 1];
      CountDistinct(q);
      var s := set i | 0 <= i < |q| :: q[i];
      assert (set i | 0 <= i < |p| :: p[i]) == s + {p[|p| - 1]};
      assert p[|p| - 1] !in s;
    }
  }

  lemma TrailBounded(g: seq<nat>, u: nat, p: seq<nat>, k: seq<nat>)
    requires Trail(g, u, p, k)
    ensures 0 < |p| <= |g| && g[u] <= FullPrice(|p| - 1)
  {
    Pigeonhole(p, |g|);
    RunningCost(k, |k| - 1);
  }

  /** A finite tentative cost is at most (n - 1) full-price steps. */
  lemma TentativeCostBounded(g: seq<nat>, u: nat)
    requires Trailed(g) && u < |g| && g[u] < G_INFINITE
    ensures g[u] <= FullPrice(|g| - 1)
  {
    hide Trail;
    var p, k :| Trail(g, u, p, k);
    TrailBounded(g, u, p, k);
  }

  /** Lowering one tile through a finite neighbour keeps every finite cost trailed. */
  lemma LowerKeepsTrails(g: seq<nat>, cur: nat, nb: nat, c: nat)
    requires Trailed(g) && cur < |g| && nb < |g| && g[cur] < G_INFINITE
    requires 1 <= c <= U32_MAX && g[cur] + c < g[nb]
    ensures Trailed(g[nb := g[cur] + c])
  {
    hide Trail;
    var t := g[nb := g[cur] + c];
    forall u | 0 <= u < |t| && t[u] < G_INFINITE ensures exists p, k :: Trail(t, u, p, k) {
      if u == nb {
        assert Trailed(g);
        var p, k :| Trail(g, cur, p, k);
        ExtendTrail(g, cur, nb, c, p, k);
      } else {
        var p, k :| Trail(g, u, p, k);
        KeepTrail(g, t, u, p, k);
      }
    }
  }

  lemma KeepTrail(g: seq<nat>, t: seq<nat>, u: nat, p: seq<nat>, k: seq<nat>)
    requires Trail(g, u, p, k) && |t| == |g| && t[u] == g[u]
    requires forall i | 0 <= i < |g| :: t[i] <= g[i]
    ensures Trail(t, u, p, k)
  {
  }

  lemma ExtendTrail(g: seq<nat>, cur: nat, nb: nat, c: nat, p: seq<nat>, k: seq<nat>)
    requires cur < |g| && nb < |g| && Trail(g, cur, p, k)
    requires 1 <= c <= U32_MAX && g[cur] + c < g[nb]
    ensures Trail(g[nb := g[cur] + c], nb, p + [nb], k + [g[cur] + c])
  {
    forall i | 0 <= i < |p| ensures p[i] != nb {
      RunningCostMonotone(k, i, |k| - 1);
    }
  }

  lemma {:induction false} RunningCostMonotone(k: seq<nat>, i: nat, j: nat)
    requires i <= j < |k|
    requires forall i | 0 < i < |k| :: k[i - 1] < k[i]
    ensures k[i] <= k[j]
    decreases j - i
  {
    if i < j {
      RunningCostMonotone(k, i, j - 1);
    }
  }

  // ---------- termination measure ----------

  function Sum(s: seq<nat>): nat {
    if s == [] then 0 else s[0] + Sum(s[1..])
  }

  lemma {:induction false} SumUpdate(s: seq<nat>, i: nat, x: nat)
    requires i < |s|
    ensures Sum(s[i := x]) + s[i] == Sum(s) + x
  {
    if i > 0 {
      SumUpdate(s[1..], i - 1, x);
      assert s[i := x][1..] == s[1..][i - 1 := x];
    } else {
      assert s[0 := x][1..] == s[1..];
    }
  }
}
