/** What a worker writes for the requests it answers: rows that point into its output buffer, where answers stay
    readable while later ones are added. */
module Staging {
  import opened Grid
  import opened SearchKernel
  import opened Emit
  import opened Solve
  import opened FieldMachine
  import opened FieldExact
  import opened FieldKernel
  import opened FieldAnswers

  // ---------- what a row carries ----------

  /** A row and the workers' buffers carry an answer. */
  ghost predicate Carried(row: Row, bufs: seq<seq<Step>>, a: Answer) {
    && row.status == a.status && row.expansions == a.expansions && row.trueQ == a.trueQ
    && row.perceivedQ == a.perceivedQ
    && row.len == |a.steps|
    && (row.len > 0 ==>
          && row.worker < |bufs| && row.localOff + row.len <= |bufs[row.worker]|
          && bufs[row.worker][row.localOff..row.localOff + row.len] == a.steps)
  }

  ghost predicate Grown(was: seq<seq<Step>>, now: seq<seq<Step>>) {
    |was| == |now| && forall w | 0 <= w < |was| :: was[w] <= now[w]
  }

  /** Buffers only grow, so what a row carries stays where it is. */
  lemma CarriedStays(row: Row, was: seq<seq<Step>>, now: seq<seq<Step>>, a: Answer)
    requires Carried(row, was, a) && Grown(was, now)
    ensures Carried(row, now, a)
  {
    if row.len > 0 {
      var o, l := was[row.worker], now[row.worker];
      assert o == l[..|o|];
      assert l[row.localOff..row.localOff + row.len] == o[row.localOff..row.localOff + row.len];
    }
  }

  /** Rows and buffers carry one answer only. */
  lemma CarriedIsUnique(row: Row, bufs: seq<seq<Step>>, a: Answer, b: Answer)
    requires Carried(row, bufs, a) && Carried(row, bufs, b)
    ensures a == b
  {
    assert row.len == 0 ==> a.steps == [] && b.steps == [];
  }

  /** A segment just written to the buffer of worker `w`. */
  lemma CarriesIsCarried(row: Row, bufs: seq<seq<Step>>, w: nat, after: seq<Step>, a: Answer)
    requires w < |bufs| && Carries(row, bufs[w], after, a) && row.worker == w
    ensures Carried(row, bufs[w := after], a) && Grown(bufs, bufs[w := after])
  {
    if row.len > 0 {
      assert after[row.localOff..row.localOff + row.len] == a.steps;
    }
  }

  /** One worker's search context and output buffer. */
  class Desk {
    const index: nat
    const ctx: SearchContext
    const buf: OutBuffer

    ghost function Frame(): set<object>
      reads ctx, ctx.heap, buf
    {
      {ctx, ctx.g, ctx.stamp, ctx.parent, ctx.heap, ctx.heap.h, buf, buf.steps}
    }

    ghost predicate Valid(n: nat)
      reads ctx, ctx.stamp, ctx.heap, ctx.heap.h, buf
    {
      ctx.Valid(n) && buf.Valid()
    }

    constructor (index: nat, n: nat)
      ensures Valid(n) && buf.Contents() == [] && fresh(Frame()) && this.index == index
              && {ctx, ctx.heap, buf} <= Frame()
    {
      this.index := index;
      ctx := new SearchContext(n);
      buf := new OutBuffer();
    }

    /** The context keeps its history, the buffer starts over. */
    method Clear(ghost n: nat)
      requires Valid(n)
      modifies buf
      ensures Valid(n) && buf.Contents() == [] && Frame() == old(Frame())
    {
      buf.len := 0;
    }

    /** Answers one request by a search on this worker's own context. */
    method Search(v: View, req: Request) returns (row: Row)
      requires Answerable(v, req) && Valid(v.N())
      modifies Frame()
      ensures Valid(v.N()) && fresh(Frame() - old(Frame()))
      ensures Carries(row, old(buf.Contents()), buf.Contents(), SearchAnswer(v, req)) && row.worker == index
    {
      hide SearchAnswer, Carries, SearchContext.Valid, Answerable;
      row := SolveRequest(v, ctx, buf, index, req);
    }

    /** Answers one request from a finished field. */
    method Read(v: View, t: Target, dist: seq<nat>, next: seq<nat>, req: Request) returns (row: Row)
      requires Answerable(v, req) && Valid(v.N()) && ValidTarget(v, t) && Usable(v, t, Stored(dist, next))
      requires req.startX < v.w && req.startY < v.h
      modifies Frame()
      ensures Valid(v.N()) && fresh(Frame() - old(Frame()))
      ensures Carries(row, old(buf.Contents()), buf.Contents(), FieldAnswer(v, t, Stored(dist, next), req))
              && row.worker == index
    {
      hide SearchAnswer, Carries, SearchContext.Valid, FieldAnswer, Usable, View.Valid;
      UsableShape(v, t, Stored(dist, next));
      var f := Loaded(dist, next);
      row := Extract(v, f, ctx, buf, index, req, t, Stored(dist, next));
    }

    /** Builds a field with this worker's own heap. */
    method Build(v: View, t: Target) returns (dist: seq<nat>, next: seq<nat>)
      requires v.Valid() && ValidTarget(v, t) && Valid(v.N())
      modifies Frame()
      ensures Valid(v.N()) && fresh(Frame() - old(Frame()))
      ensures dist == Field(v, t).dist && next == Field(v, t).next && buf.Contents() == old(buf.Contents())
    {
      hide Field;
      var f := new GoalField(v.w * v.h);
      f.Build(v, t, ctx.heap);
      dist, next := f.dist[..], f.next[..];
    }
  }

  /** The workers and the staging rows they fill.  Workers share nothing but the rows, and of those each task writes its
      own. */
  class Crew {
    const desks: seq<Desk>
    var rows: map<nat, Row>
    ghost var Repr: set<object>

    /** Every worker's objects belong to the crew, and to no other worker. */
    ghost predicate Owned()
      reads this, Repr
    {
      && this in Repr
      && (forall w | 0 <= w < |desks| :: desks[w].ctx in Repr && desks[w].ctx.heap in Repr && desks[w].buf in Repr)
      && (forall w | 0 <= w < |desks| :: desks[w].index == w && desks[w].Frame() <= Repr && this !in desks[w].Frame())
      && (forall v, w | 0 <= v < w < |desks| :: desks[v].Frame() !! desks[w].Frame())
    }

    ghost predicate Valid(n: nat)
      reads this, Repr
    {
      |desks| > 0 && Owned() && forall w | 0 <= w < |desks| :: desks[w].Valid(n)
    }

    ghost function BufferOf(w: nat): (b: seq<Step>)
      reads this, Repr
      requires w < |desks| && Owned() && desks[w].buf.Valid()
      ensures b == desks[w].buf.Contents()
    {
      assert desks[w].buf.steps in desks[w].Frame();
      desks[w].buf.Contents()
    }

    /** What the workers' buffers hold. */
    ghost function Bufs(): (b: seq<seq<Step>>)
      reads this, Repr
      requires Owned() && forall w | 0 <= w < |desks| :: desks[w].buf.Valid()
      ensures |b| == |desks| && forall w | 0 <= w < |desks| :: b[w] == desks[w].buf.Contents()
    {
      seq(|desks|, w requires 0 <= w < |desks| && Owned() && desks[w].buf.Valid() reads this, Repr => BufferOf(w))
    }

    /** The row of request `r` carries `a`. */
    ghost predicate Staged(r: nat, a: Answer)
      reads this, Repr
    {
      Owned() && (forall w | 0 <= w < |desks| :: desks[w].buf.Valid()) && r in rows && Carried(rows[r], Bufs(), a)
    }

    /** What a worker's state depends on is in its frame. */
    lemma OwnFrame(w: nat)
      requires w < |desks|
      ensures OwnParts(w) <= desks[w].Frame()
    {
    }

    ghost function OwnParts(w: nat): set<object>
      requires w < |desks|
      reads desks[w].ctx, desks[w].ctx.heap, desks[w].buf
    {
      {desks[w].ctx, desks[w].ctx.stamp, desks[w].ctx.heap, desks[w].ctx.heap.h, desks[w].buf, desks[w].buf.steps}
    }

    /** The workers' frames. */
    ghost function Frames(): (f: seq<set<object>>)
      reads this, Repr
      requires Owned()
      ensures |f| == |desks| && forall w | 0 <= w < |desks| :: f[w] == desks[w].Frame()
    {
      seq(|desks|, w requires 0 <= w < |desks| && Owned() reads this, Repr => desks[w].Frame())
    }

    constructor (workers: nat, n: nat)
      requires workers > 0
      ensures Valid(n) && rows == map[] && fresh(Repr) && |desks| == workers
    {
      hide SearchContext.Valid, Desk.Frame;
      var made: seq<Desk> := [];
      ghost var objects: set<object> := {};
      for k := 0 to workers
        invariant |made| == k && fresh(objects)
        invariant forall w | 0 <= w < k ::
                    made[w].index == w && made[w].Valid(n) && made[w].Frame() + {made[w].ctx, made[w].ctx.heap,
                        made[w].buf} <= objects
        invariant forall v, w | 0 <= v < w < k :: made[v].Frame() !! made[w].Frame()
      {
        var d := new Desk(k, n);
        made := made + [d];
        objects := objects + d.Frame();
      }
      desks, rows := made, map[];
      Repr := objects + {this};
    }

    /** The buffers' texts, for the assembly. */
    method Texts(ghost n: nat) returns (b: seq<seq<Step>>)
      requires Valid(n)
      ensures b == Bufs()
    {
      hide SearchContext.Valid, Desk.Frame;
      b := [];
      for w := 0 to |desks|
        invariant |b| == w && forall u | 0 <= u < w :: b[u] == desks[u].buf.Contents()
      {
        b := b + [desks[w].buf.steps[..desks[w].buf.len]];
      }
    }

    predicate Works(w: nat) { w < |desks| }

    /** The worker that claims the next task; it may be any. */
    method Claim() returns (w: nat)
      requires |desks| > 0
      ensures w < |desks|
    {
      assert Works(0);
      w :| Works(w) && w < |desks|;
    }

    /** A new batch starts with empty rows and buffers; the contexts keep their history. */
    method Clear(ghost n: nat)
      requires Valid(n)
      modifies Repr
      ensures Valid(n) && rows == map[] && Repr == old(Repr) && forall w | 0 <= w < |desks| :: Bufs()[w] == []
    {
      hide SearchContext.Valid, Desk.Frame;
      ClearRows(n);
      for k := 0 to |desks|
        invariant Valid(n) && rows == map[] && Repr == old(Repr)
        invariant forall w | 0 <= w < k :: Bufs()[w] == []
      {
        ClearDesk(k, n);
      }
    }

    /** After worker `w` has worked its new objects join the crew; all others are as they were. */
    ghost method Regroup(w: nat, n: nat, frames: seq<set<object>>, bufs: seq<seq<Step>>)
      requires w < |desks| == |frames| == |bufs| && this in Repr
      requires forall u | 0 <= u < |desks| ::
                 && desks[u].index == u && desks[u].Valid(n) && this !in desks[u].Frame()
                 && (u != w ==>
                      desks[u].Frame() == frames[u] && desks[u].buf.Contents() == bufs[u] && frames[u] <= Repr)
      requires forall v, u | 0 <= v < u < |desks| :: frames[v] !! frames[u]
      requires forall u | 0 <= u < |desks| && u != w :: frames[u] !! desks[w].Frame()
      modifies this`Repr
      ensures Valid(n) && Repr == old(Repr) + desks[w].Frame() && Bufs() == bufs[w := desks[w].buf.Contents()]
    {
      hide SearchContext.Valid, Desk.Frame;
      Repr := Repr + desks[w].Frame();
      forall u | 0 <= u < |desks|
        ensures desks[u].ctx in Repr && desks[u].ctx.heap in Repr && desks[u].buf in Repr && desks[u].Frame() <= Repr
      {
        OwnFrame(u);
      }
    }

    method ClearRows(ghost n: nat)
      requires Valid(n)
      modifies this`rows
      ensures Valid(n) && rows == map[] && Bufs() == old(Bufs())
    {
      hide SearchContext.Valid, Desk.Frame;
      rows := map[];
    }

    method ClearDesk(k: nat, ghost n: nat)
      requires Valid(n) && k < |desks|
      modifies Repr
      ensures Valid(n) && rows == old(rows) && Repr == old(Repr) && Bufs() == old(Bufs())[k := []]
    {
      hide SearchContext.Valid, Desk.Frame;
      ghost var bufs, frames := Bufs(), Frames();
      OwnFrames();
      desks[k].Clear(n);
      forall u | 0 <= u < |desks| && u != k
        ensures desks[u].Frame() == frames[u] && desks[u].Valid(n) && desks[u].buf.Contents() == bufs[u]
      {
        assert old(desks[u].Valid(n)) && old(OwnParts(u)) <= frames[u];
        assert frames[u] !! frames[k];
      }
      Regroup(k, n, frames, bufs);
      assert Repr == old(Repr);
    }

    /** Everything a worker's state depends on, worker by worker. */
    lemma OwnFrames()
      requires Owned()
      ensures forall u | 0 <= u < |desks| :: OwnParts(u) <= desks[u].Frame()
    {
      forall u | 0 <= u < |desks| ensures OwnParts(u) <= desks[u].Frame() {
        OwnFrame(u);
      }
    }

    /** Answers request `r` by a search on worker `w`, whatever that worker did before. */
    method Search(w: nat, v: View, req: Request, r: nat)
      requires w < |desks| && Answerable(v, req) && Valid(v.N())
      modifies Repr
      ensures Valid(v.N()) && fresh(Repr - old(Repr))
      ensures Bufs() == old(Bufs())[w := old(Bufs())[w] + SearchAnswer(v, req).steps]
      ensures r in rows && rows == old(rows)[r := rows[r]] && rows[r].worker == w
      ensures Carries(rows[r], old(Bufs())[w], Bufs()[w], SearchAnswer(v, req))
      ensures Staged(r, SearchAnswer(v, req))
      ensures forall x: nat, b: Answer | x != r && old(Staged(x, b)) :: Staged(x, b)
    {
      hide SearchAnswer, Carries, Carried, SearchContext.Valid, Desk.Frame, Answerable, View.Valid;
      ghost var bufs, frames, n := Bufs(), Frames(), v.N();
      OwnFrames();
      var row := desks[w].Search(v, req);
      CarriesGrows(row, bufs[w], desks[w].buf.Contents(), SearchAnswer(v, req));
      RowsStay(rows, rows[r := row], bufs, w, r, SearchAnswer(v, req));
      forall u | 0 <= u < |desks| && u != w
        ensures desks[u].Frame() == frames[u] && desks[u].Valid(n) && desks[u].buf.Contents() == bufs[u]
      {
        assert old(desks[u].Valid(n)) && old(OwnParts(u)) <= frames[u];
        assert frames[u] !! frames[w];
      }
      rows := rows[r := row];
      Regroup(w, n, frames, bufs);
    }

    /** Answers request `r` from a finished field, on worker `w`. */
    method Read(w: nat, v: View, t: Target, dist: seq<nat>, next: seq<nat>, req: Request, r: nat)
      requires w < |desks| && Answerable(v, req) && Valid(v.N()) && ValidTarget(v, t)
               && Usable(v, t, Stored(dist, next))
      requires req.startX < v.w && req.startY < v.h
      modifies Repr
      ensures Valid(v.N()) && fresh(Repr - old(Repr))
      ensures Bufs() == old(Bufs())[w := old(Bufs())[w] + FieldAnswer(v, t, Stored(dist, next), req).steps]
      ensures r in rows && rows == old(rows)[r := rows[r]] && rows[r].worker == w
      ensures Carries(rows[r], old(Bufs())[w], Bufs()[w], FieldAnswer(v, t, Stored(dist, next), req))
      ensures Staged(r, FieldAnswer(v, t, Stored(dist, next), req))
      ensures forall x: nat, b: Answer | x != r && old(Staged(x, b)) :: Staged(x, b)
    {
      hide Carries, Carried, SearchContext.Valid, Desk.Frame, Answerable, FieldAnswer, Usable, View.Valid;
      ghost var bufs, frames, n := Bufs(), Frames(), v.N();
      OwnFrames();
      var row := desks[w].Read(v, t, dist, next, req);
      CarriesGrows(row, bufs[w], desks[w].buf.Contents(), FieldAnswer(v, t, Stored(dist, next), req));
      RowsStay(rows, rows[r := row], bufs, w, r, FieldAnswer(v, t, Stored(dist, next), req));
      forall u | 0 <= u < |desks| && u != w
        ensures desks[u].Frame() == frames[u] && desks[u].Valid(n) && desks[u].buf.Contents() == bufs[u]
      {
        assert old(desks[u].Valid(n)) && old(OwnParts(u)) <= frames[u];
        assert frames[u] !! frames[w];
      }
      rows := rows[r := row];
      Regroup(w, n, frames, bufs);
    }

    /** Builds a field on worker `w`; nothing staged changes. */
    method Build(w: nat, v: View, t: Target) returns (dist: seq<nat>, next: seq<nat>)
      requires w < |desks| && v.Valid() && ValidTarget(v, t) && Valid(v.N())
      modifies Repr
      ensures Valid(v.N()) && fresh(Repr - old(Repr)) && Bufs() == old(Bufs()) && rows == old(rows)
      ensures forall x: nat, b: Answer | old(Staged(x, b)) :: Staged(x, b)
      ensures dist == Field(v, t).dist && next == Field(v, t).next
    {
      hide Field, Carried, SearchContext.Valid, Desk.Frame, View.Valid, ValidTarget;
      ghost var bufs, frames, n := Bufs(), Frames(), v.N();
      OwnFrames();
      dist, next := desks[w].Build(v, t);
      forall u | 0 <= u < |desks| && u != w
        ensures desks[u].Frame() == frames[u] && desks[u].Valid(n) && desks[u].buf.Contents() == bufs[u]
      {
        assert old(desks[u].Valid(n)) && old(OwnParts(u)) <= frames[u];
        assert frames[u] !! frames[w];
      }
      Regroup(w, n, frames, bufs);
    }
  }

  /** A new row, its segment just written by worker `w`, disturbs no other. */
  lemma RowsStay(was: map<nat, Row>, now: map<nat, Row>, bufs: seq<seq<Step>>, w: nat, r: nat, a: Answer)
    requires w < |bufs| && r in now && now == was[r := now[r]] && now[r].worker == w
    requires Carries(now[r], bufs[w], bufs[w] + a.steps, a)
    ensures Carried(now[r], bufs[w := bufs[w] + a.steps], a)
    ensures forall x, b | x in was && x != r && Carried(was[x], bufs, b) ::
              x in now && Carried(now[x], bufs[w := bufs[w] + a.steps], b)
  {
    hide Carries, Carried;
    CarriesIsCarried(now[r], bufs, w, bufs[w] + a.steps, a);
    forall x, b | x in was && x != r && Carried(was[x], bufs, b)
      ensures Carried(now[x], bufs[w := bufs[w] + a.steps], b)
    {
      CarriedStays(was[x], bufs, bufs[w := bufs[w] + a.steps], b);
    }
  }

  lemma CarriesGrows(row: Row, before: seq<Step>, after: seq<Step>, a: Answer)
    requires Carries(row, before, after, a)
    ensures after == before + a.steps
  {
  }

  /** A cached field's arrays. */
  method Loaded(dist: seq<nat>, next: seq<nat>) returns (f: GoalField)
    requires |dist| == |next|
    ensures fresh(f) && fresh(f.dist) && fresh(f.next) && f.dist != f.next && f.dist[..] == dist && f.next[..] == next
    ensures f.Shows(Stored(dist, next))
  {
    f := new GoalField(|dist|);
    for i := 0 to |dist|
      invariant f.dist[..i] == dist[..i] && f.next[..i] == next[..i]
    {
      f.dist[i], f.next[i] := dist[i], next[i];
      assert f.dist[..i + 1] == dist[..i] + [dist[i]] && f.next[..i + 1] == next[..i] + [next[i]];
    }
    assert f.dist[..] == f.dist[..|dist|] == dist && f.next[..] == f.next[..|dist|] == next;
  }
}
