/** Grouping of requests by goal and profile: an open-addressed table of groups, each with a linked list of members
    threaded through one shared array. */
module Groups {
  import opened Recency
  import opened Interner
  import Trails

  const NO_MEMBER: nat := 0xFFFF_FFFF

  /** What one request asks of the grouping. */
  datatype Want = Apart | Joins(key: Key)

  datatype Group = Group(used: bool, key: Key, count: nat, first: nat, last: nat)

  const FREE: Group := Group(false, Key(0, 0, 0), 0, 0, 0)

  /** The requests that joined `k`, in order. */
  ghost function Members(wants: seq<Want>, k: Key): seq<nat> {
    if wants == [] then []
    else
      var i := |wants| - 1;
      Members(wants[..i], k) + if wants[i] == Joins(k) then [i] else []
  }

  lemma {:induction false} MembersAre(wants: seq<Want>, k: Key)
    ensures forall j: nat :: j in Members(wants, k) <==> j < |wants| && wants[j] == Joins(k)
    ensures forall x, y | 0 <= x < y < |Members(wants, k)| :: Members(wants, k)[x] < Members(wants, k)[y]
  {
    if wants != [] {
      var i := |wants| - 1;
      var m := Members(wants[..i], k);
      MembersAre(wants[..i], k);
      forall x | 0 <= x < |m| ensures m[x] < i {
        assert m[x] in m;
      }
    }
  }

  lemma MembersStep(wants: seq<Want>, w: Want, k: Key)
    ensures Members(wants + [w], k) == Members(wants, k) + if w == Joins(k) then [|wants|] else []
  {
    assert (wants + [w])[..|wants|] == wants;
  }

  /** From `first`, following `next` visits exactly `m` and stops. */
  ghost predicate Threads(next: seq<nat>, m: seq<nat>, g: Group) {
    && m != [] && g.count == |m| && g.first == m[0] && g.last == m[|m| - 1]
    && (forall x | 0 <= x < |m| :: m[x] < |next|)
    && (forall x | 0 <= x < |m| - 1 :: next[m[x]] == m[x + 1])
    && next[m[|m| - 1]] == NO_MEMBER
  }

  /** No free slot lies before slot `s` on its key's probe path. */
  ghost predicate OnPath(tab: seq<Group>, hash: Key -> nat, s: nat)
    requires s < |tab|
  {
    exists d: nat :: PathTo(tab, hash(tab[s].key), s, d)
  }

  ghost predicate PathTo(tab: seq<Group>, h: nat, s: nat, d: nat)
    requires |tab| > 0
  {
    d < |tab| && Probe(|tab|, h, d) == s && forall e: nat | e < d :: tab[Probe(|tab|, h, e)].used
  }

  ghost predicate HasGroup(tab: seq<Group>, k: Key) {
    exists s :: 0 <= s < |tab| && tab[s].used && tab[s].key == k
  }

  /** The table and the links describe the groups of `wants` exactly. */
  ghost predicate Grouped(tab: seq<Group>, next: seq<nat>, hash: Key -> nat, wants: seq<Want>) {
    && |wants| <= |next| < |tab| && |next| < NO_MEMBER
    && (forall s, t | 0 <= s < t < |tab| && tab[s].used && tab[t].used :: tab[s].key != tab[t].key)
    && (forall s | 0 <= s < |tab| && tab[s].used :: OnPath(tab, hash, s))
    && (forall s | 0 <= s < |tab| && tab[s].used :: Threads(next, Members(wants, tab[s].key), tab[s]))
    && (forall j | 0 <= j < |wants| && wants[j].Joins? :: HasGroup(tab, wants[j].key))
  }

  /** Groups are fewer than slots, so probing meets a free one. */
  lemma SomeSlotFree(tab: seq<Group>, next: seq<nat>, hash: Key -> nat, wants: seq<Want>) returns (s: nat)
    requires Grouped(tab, next, hash, wants)
    ensures s < |tab| && !tab[s].used
  {
    hide OnPath, HasGroup;
    if forall s | 0 <= s < |tab| :: tab[s].used {
      var firsts: seq<nat> := seq(|tab|, s requires 0 <= s < |tab| => tab[s].first);
      forall s, t | 0 <= s < t < |tab| ensures firsts[s] != firsts[t] {
        assert Threads(next, Members(wants, tab[s].key), tab[s]);
        assert Threads(next, Members(wants, tab[t].key), tab[t]);
        MembersAre(wants, tab[s].key);
        MembersAre(wants, tab[t].key);
        assert firsts[s] in Members(wants, tab[s].key) && firsts[t] in Members(wants, tab[t].key);
      }
      forall s | 0 <= s < |tab| ensures firsts[s] < |wants| {
        assert Threads(next, Members(wants, tab[s].key), tab[s]);
        MembersAre(wants, tab[s].key);
        assert firsts[s] in Members(wants, tab[s].key);
      }
      Trails.Pigeonhole(firsts, |wants|);
      assert false;
    }
    s :| 0 <= s < |tab| && !tab[s].used;
  }

  /** A free slot met before any match proves the key has no group. */
  lemma FreeMeansNew(tab: seq<Group>, next: seq<nat>, hash: Key -> nat, wants: seq<Want>, k: Key, d: nat)
    requires Grouped(tab, next, hash, wants) && d < |tab| && !tab[Probe(|tab|, hash(k), d)].used
    requires forall e: nat | e < d :: tab[Probe(|tab|, hash(k), e)].key != k
    ensures !HasGroup(tab, k)
  {
    hide Probe, Threads;
    hide PathTo;
    forall s | 0 <= s < |tab| && tab[s].used ensures tab[s].key != k {
      assert OnPath(tab, hash, s);
      var c: nat :| PathTo(tab, hash(tab[s].key), s, c);
      PathStops(tab, hash(k), k, s, c, d);
    }
  }

  lemma PathUsed(tab: seq<Group>, h: nat, s: nat, c: nat, d: nat)
    requires |tab| > 0 && PathTo(tab, h, s, c) && d < c
    ensures tab[Probe(|tab|, h, d)].used
  {
  }

  lemma PathStops(tab: seq<Group>, h: nat, k: Key, s: nat, c: nat, d: nat)
    requires s < |tab| && d < |tab| && tab[s].used && !tab[Probe(|tab|, h, d)].used
    requires forall e: nat | e < d :: tab[Probe(|tab|, h, e)].key != k
    ensures PathTo(tab, h, s, c) ==> tab[s].key != k
  {
    if PathTo(tab, h, s, c) && d < c {
      PathUsed(tab, h, s, c, d);
    }
  }

  /** Opening a group for a new key in the first free slot of its probe path. */
  lemma OpenGroup(tab: seq<Group>, next: seq<nat>, hash: Key -> nat, wants: seq<Want>, k: Key, s: nat, d: nat)
    requires Grouped(tab, next, hash, wants) && |wants| < |next| && !HasGroup(tab, k)
    requires s < |tab| && !tab[s].used && PathTo(tab, hash(k), s, d)
    ensures Grouped(tab[s := Group(true, k, 1, |wants|, |wants|)], next[|wants| := NO_MEMBER], hash, wants + [Joins(k)])
  {
    hide Probe, PathTo, Members, HasGroup;
    NoneFor(tab, k);
    var i := |wants|;
    var g := Group(true, k, 1, i, i);
    var tab', next', wants' := tab[s := g], next[i := NO_MEMBER], wants + [Joins(k)];
    forall t | 0 <= t < |tab'| && tab'[t].used ensures Threads(next', Members(wants', tab'[t].key), tab'[t]) {
      MembersStep(wants, Joins(k), tab'[t].key);
      if t == s {
        NoMembers(tab, next, hash, wants, k);
        assert Members(wants + [Joins(k)], k) == [i];
      } else {
        assert tab[t].key != k;
        assert Threads(next, Members(wants, tab[t].key), tab[t]);
        MembersAre(wants, tab[t].key);
        ThreadsElsewhere(next, Members(wants, tab[t].key), tab[t], i, NO_MEMBER);
      }
    }
    hide Threads;
    forall t | 0 <= t < |tab'| && tab'[t].used ensures OnPath(tab', hash, t) {
      if t == s {
        PathKept(tab, hash(k), s, d, s, g);
      } else {
        var c: nat :| PathTo(tab, hash(tab[t].key), t, c);
        PathKept(tab, hash(tab[t].key), t, c, s, g);
      }
    }
    hide OnPath;
    StillGrouped(tab, wants, k, s, g);
  }

  /** Changing one slot for `k` leaves every request with its group. */
  lemma StillGrouped(tab: seq<Group>, wants: seq<Want>, k: Key, s: nat, g: Group)
    requires forall j | 0 <= j < |wants| && wants[j].Joins? :: HasGroup(tab, wants[j].key)
    requires s < |tab| && g.used && g.key == k && (tab[s].used ==> tab[s].key == k)
    ensures forall j | 0 <= j < |wants + [Joins(k)]| && (wants + [Joins(k)])[j].Joins? ::
              HasGroup(tab[s := g], (wants + [Joins(k)])[j].key)
  {
    var tab', wants' := tab[s := g], wants + [Joins(k)];
    forall j | 0 <= j < |wants'| && wants'[j].Joins? ensures HasGroup(tab', wants'[j].key) {
      if j == |wants| {
        assert tab'[s].key == k;
      } else {
        assert wants'[j] == wants[j] && HasGroup(tab, wants[j].key);
        var t :| 0 <= t < |tab| && tab[t].used && tab[t].key == wants[j].key;
        assert tab'[t].key == tab[t].key;
      }
    }
  }

  lemma NoneFor(tab: seq<Group>, k: Key)
    requires !HasGroup(tab, k)
    ensures forall s | 0 <= s < |tab| && tab[s].used :: tab[s].key != k
  {
  }

  lemma NoMembers(tab: seq<Group>, next: seq<nat>, hash: Key -> nat, wants: seq<Want>, k: Key)
    requires Grouped(tab, next, hash, wants) && !HasGroup(tab, k)
    ensures Members(wants, k) == []
  {
    hide Threads, OnPath;
    MembersAre(wants, k);
    assert Members(wants, k) != [] ==> Members(wants, k)[0] in Members(wants, k);
  }

  lemma ThreadsElsewhere(next: seq<nat>, m: seq<nat>, g: Group, i: nat, v: nat)
    requires Threads(next, m, g) && i < |next| && i !in m
    ensures Threads(next[i := v], m, g)
  {
  }

  lemma PathKept(tab: seq<Group>, h: nat, t: nat, d: nat, s: nat, g: Group)
    requires |tab| > 0 && s < |tab| && PathTo(tab, h, t, d) && g.used
    ensures PathTo(tab[s := g], h, t, d)
  {
    hide Probe;
  }

  /** Appending a member to an existing group. */
  lemma JoinGroup(tab: seq<Group>, next: seq<nat>, hash: Key -> nat, wants: seq<Want>, k: Key, s: nat)
    requires Grouped(tab, next, hash, wants) && |wants| < |next| && s < |tab| && tab[s].used && tab[s].key == k
    ensures tab[s].last < |next|
    ensures Grouped(tab[s := tab[s].(count := tab[s].count + 1, last := |wants|)],
                    next[tab[s].last := |wants|][|wants| := NO_MEMBER], hash, wants + [Joins(k)])
  {
    hide Probe, PathTo, Members, HasGroup;
    var i, g := |wants|, tab[s].(count := tab[s].count + 1, last := |wants|);
    var m := Members(wants, k);
    assert Threads(next, m, tab[s]);
    MembersAre(wants, k);
    assert m[|m| - 1] in m;
    var tab', next', wants' := tab[s := g], next[tab[s].last := i][i := NO_MEMBER], wants + [Joins(k)];
    forall t | 0 <= t < |tab'| && tab'[t].used ensures Threads(next', Members(wants', tab'[t].key), tab'[t]) {
      MembersStep(wants, Joins(k), tab'[t].key);
      if t == s {
        ThreadsGrow(next, m, tab[s], i);
      } else {
        var o := Members(wants, tab[t].key);
        assert tab[t].key != k && Threads(next, o, tab[t]);
        MembersAre(wants, tab[t].key);
        assert tab[s].last !in o;
        ThreadsElsewhere(next, o, tab[t], tab[s].last, i);
        ThreadsElsewhere(next[tab[s].last := i], o, tab[t], i, NO_MEMBER);
      }
    }
    hide Threads;
    forall t | 0 <= t < |tab'| && tab'[t].used ensures OnPath(tab', hash, t) {
      var c: nat :| PathTo(tab, hash(tab[t].key), t, c);
      PathKept(tab, hash(tab[t].key), t, c, s, g);
    }
    hide OnPath;
    StillGrouped(tab, wants, k, s, g);
  }

  lemma ThreadsGrow(next: seq<nat>, m: seq<nat>, g: Group, i: nat)
    requires Threads(next, m, g) && i < |next| && (forall x | 0 <= x < |m| :: m[x] < i)
    requires forall x, y | 0 <= x < y < |m| :: m[x] < m[y]
    ensures Threads(next[g.last := i][i := NO_MEMBER], m + [i], g.(count := g.count + 1, last := i))
  {
  }

  /** A request that joins no group changes nothing. */
  lemma StandApart(tab: seq<Group>, next: seq<nat>, hash: Key -> nat, wants: seq<Want>)
    requires Grouped(tab, next, hash, wants) && |wants| < |next|
    ensures Grouped(tab, next, hash, wants + [Apart])
  {
    hide Threads, OnPath, HasGroup, Members;
    forall s | 0 <= s < |tab| && tab[s].used ensures Threads(next, Members(wants + [Apart], tab[s].key), tab[s]) {
      MembersStep(wants, Apart, tab[s].key);
      assert Members(wants, tab[s].key) + [] == Members(wants, tab[s].key);
    }
  }

  class GroupTable {
    const tab: array<Group>
    const next: array<nat>
    const hash: Key -> nat

    ghost predicate Holds(wants: seq<Want>)
      reads tab, next
    {
      Grouped(tab[..], next[..], hash, wants)
    }

    /** The table's arrays are none of `objects`. */
    ghost predicate Aside(objects: set<object>) { tab !in objects && next !in objects }

    /** Room for `n` requests: at least twice as many slots, a power of two. */
    constructor (n: nat, hash: Key -> nat)
      requires n < NO_MEMBER
      ensures Holds([]) && fresh(tab) && fresh(next) && this.hash == hash && next.Length == n
    {
      var cap := 16;
      while cap < 2 * n
        invariant cap >= 16
      {
        cap := cap * 2;
      }
      this.hash := hash;
      tab := new Group[cap](_ => FREE);
      next := new nat[n](_ => NO_MEMBER);
    }

    /** The slot of a key's group, or the free slot where it belongs. */
    method Find(k: Key, ghost wants: seq<Want>) returns (s: nat)
      requires Holds(wants)
      ensures s < tab.Length
      ensures if HasGroup(tab[..], k) then tab[s].used && tab[s].key == k
              else !tab[s].used && exists d: nat :: PathTo(tab[..], hash(k), s, d)
    {
      hide Probe, Following, Grouped;
      ghost var free := SomeSlotFree(tab[..], next[..], hash, wants);
      ghost var last := ProbeReaches(tab.Length, hash(k), free);
      var i := hash(k) % tab.Length;
      ghost var d := 0;
      ProbeStart(tab.Length, hash(k));
      while tab[i].used && tab[i].key != k
        invariant d <= last < tab.Length && i < tab.Length && i == Probe(tab.Length, hash(k), d)
        invariant forall e: nat | e < d ::
                    tab[Probe(tab.Length, hash(k), e)].used && tab[Probe(tab.Length, hash(k), e)].key != k
        decreases last - d
      {
        ProbeNext(tab.Length, hash(k), d);
        i := Following(tab.Length, i);
        d := d + 1;
      }
      if !tab[i].used {
        FreeMeansNew(tab[..], next[..], hash, wants, k, d);
      } else {
        assert tab[..][i].used;
      }
      assert PathTo(tab[..], hash(k), i, d);
      s := i;
    }

    /** Adds the next request to its key's group. */
    method Add(i: nat, k: Key, ghost wants: seq<Want>)
      requires Holds(wants) && i == |wants| < next.Length
      modifies tab, next
      ensures Holds(wants + [Joins(k)])
    {
      hide Grouped, PathTo, HasGroup;
      LinksFit(wants);
      var s := Find(k, wants);
      ghost var t0: seq<Group>, n0: seq<nat> := tab[..], next[..];
      if !tab[s].used {
        ghost var d: nat :| PathTo(tab[..], hash(k), s, d);
        OpenGroup(t0, n0, hash, wants, k, s, d);
        tab[s] := Group(true, k, 1, i, i);
        next[i] := NO_MEMBER;
        assert next[..] == n0[i := NO_MEMBER];
      } else {
        JoinGroup(t0, n0, hash, wants, k, s);
        next[tab[s].last] := i;
        tab[s] := tab[s].(count := tab[s].count + 1, last := i);
        next[i] := NO_MEMBER;
        ghost var n1: seq<nat> := n0[t0[s].last := i];
        assert next[..] == n1[i := NO_MEMBER];
      }
      assert tab[..] == t0[s := tab[s]];
    }

    lemma Skip(wants: seq<Want>)
      requires Holds(wants) && |wants| < next.Length
      ensures Holds(wants + [Apart])
    {
      StandApart(tab[..], next[..], hash, wants);
    }

    lemma GroupOf(wants: seq<Want>, i: nat)
      requires Holds(wants) && i < |wants| && wants[i].Joins?
      ensures HasGroup(tab[..], wants[i].key)
    {
    }

    lemma GroupThreads(wants: seq<Want>, s: nat)
      requires Holds(wants) && s < tab.Length && tab[s].used
      ensures Threads(next[..], Members(wants, tab[s].key), tab[s])
    {
    }

    lemma LinksFit(wants: seq<Want>)
      requires Holds(wants)
      ensures tab.Length > 0 && |wants| <= next.Length
    {
    }
  }
}
