/**
 * No waiter is lost between the handler and the queues (services/gateway/main.py over
 * services/gateway/queueing.py): a request that waits for a slot stands in the queue of its worker,
 * alive, until a slot is granted to it, its client leaves, or its own time is up.
 */
module Waiters {
  import opened Basics
  import G = Gateway
  import L = Lifecycle
  import Q = Queueing

  /** A live entry of the queue has this identity. */
  ghost predicate InLine(q: Q.Queue, id: nat) {
    exists x :: x in q.waiting && !x.cancelled && x.id == id
  }

  /** The move takes the waiting time of request `i` away: its future is cancelled, or it came with no time to wait. */
  predicate EndsWait(c: Q.Config, m: G.Move, i: nat) {
    || m == G.Expire(i)
    || (m.Enter? && m.i == i && m.item.Arrive?
        && (c.timeout <= 0.0 || (m.item.deadline.Some? && m.item.deadline.value <= m.item.now)))
  }

  /** Some move that was possible in its turn ended the wait of request `i`. */
  ghost predicate Lapsed(c: Q.Config, moves: seq<G.Move>, i: nat) {
    moves != [] &&
    var front, m := moves[..|moves| - 1], moves[|moves| - 1];
    Lapsed(c, front, i) || (G.CanMove(G.Exec(c, front), m) && EndsWait(c, m, i))
  }

  // ---- What the queue keeps ----

  lemma TakeKeepsLive(q: Q.Queue, k: nat, id: nat)
    requires k < |q.waiting| && InLine(q, id)
    ensures InLine(Q.Take(q, k), id) || id in Q.Take(q, k).held
  {
    var x :| x in q.waiting && !x.cancelled && x.id == id;
    var m: nat :| m < |q.waiting| && q.waiting[m] == x;
    var q' := Q.Take(q, k);
    if m != k {
      var n := if m < k then m else m - 1;
      assert Without(q.waiting, k)[n] == x;
      assert q'.waiting[n] in q'.waiting && q'.waiting[n].id == id && !q'.waiting[n].cancelled;
    }
  }

  lemma {:induction false} DrainKeepsLive(c: Q.Config, q: Q.Queue, id: nat)
    requires InLine(q, id) || id in q.held
    ensures InLine(Q.Drain(c, q), id) || id in Q.Drain(c, q).held
    decreases |q.waiting|
  {
    if !Q.CanPump(c, q) {
    } else {
      var k := Q.Best(c, q.waiting);
      if InLine(q, id) {
        TakeKeepsLive(q, k, id);
      }
      DrainKeepsLive(c, Q.PumpOne(c, q), id);
    }
  }

  lemma CancellingKeepsLine(q: seq<Q.Item>, other: nat, x: Q.Item)
    requires x in q && !x.cancelled && x.id != other
    ensures x in Q.Cancel(q, other)
  {
    var m: nat :| m < |q| && q[m] == x;
    assert Q.Cancel(q, other)[m] == x;
  }

  lemma RemovingKeepsLine(q: seq<Q.Item>, other: nat, x: Q.Item)
    requires x in q && x.id != other
    ensures x in Q.RemoveFirst(q, other)
  {
    var m: nat :| m < |q| && q[m] == x;
    var k := Q.IndexOf(q, other);
    if k < |q| {
      var n := if m < k then m else m - 1;
      assert Without(q, k)[n] == x;
    }
  }

  /** Cancelling another entry, or removing it, leaves this one in line. */
  lemma OthersStayInLine(c: Q.Config, q: Q.Queue, other: nat, id: nat)
    requires InLine(q, id) && other != id
    ensures InLine(Q.Step(c, q, Q.Expire(other)), id) && InLine(Q.Step(c, q, Q.Drop(other)), id)
  {
    var x :| x in q.waiting && !x.cancelled && x.id == id;
    CancellingKeepsLine(q.waiting, other, x);
    RemovingKeepsLine(q.waiting, other, x);
  }

  /** Everybody in line in `q` but `other` is in line in `q'`. */
  ghost predicate LineBut(q: Q.Queue, other: nat, q': Q.Queue) {
    forall id :: InLine(q, id) && id != other ==> InLine(q', id)
  }

  lemma LineButOne(c: Q.Config, q: Q.Queue, other: nat)
    ensures LineBut(q, other, G.Expired(c, q, other)) && LineBut(q, other, Q.Step(c, q, Q.Drop(other)))
    ensures LineBut(q, other, Q.Step(c, G.Expired(c, q, other), Q.Drop(other)))
  {
    forall id | InLine(q, id) && id != other
      ensures InLine(G.Expired(c, q, other), id) && InLine(Q.Step(c, q, Q.Drop(other)), id)
      ensures InLine(Q.Step(c, G.Expired(c, q, other), Q.Drop(other)), id)
    {
      OthersStayInLine(c, q, other, id);
      OthersStayInLine(c, G.Expired(c, q, other), other, id);
    }
  }

  /** A slot given back is granted to a waiter, or the waiter stays in line. */
  lemma GivenBackKeepsLine(c: Q.Config, q: Q.Queue, gone: nat, id: nat)
    requires Q.Fresh(q) && gone in q.held && InLine(q, id)
    ensures var q' := Q.GiveBack(c, q, gone); InLine(q', id) || id in q'.held - q.held
  {
    WaitersHoldNothing(q, id);
    DrainKeepsLive(c, q.(held := q.held - {gone}, inflight := q.inflight - 1), id);
  }

  lemma WaitersHoldNothing(q: Q.Queue, id: nat)
    requires Q.Fresh(q) && InLine(q, id)
    ensures id !in q.held
  {
    var x :| x in q.waiting && !x.cancelled && x.id == id;
    var m: nat :| m < |q.waiting| && q.waiting[m] == x;
    assert q.waiting[m].id !in q.held;
  }

  // ---- What each move keeps ----

  /** The request waits in line for worker `k`, if it waits there. */
  ghost predicate Listed(j: G.Joint, k: string, i: nat) {
    G.Waits(j.w, k, i) ==> i < |j.ids| && InLine(G.QueueOf(j, k), j.ids[i])
  }

  /** Who waits after a slot was passed on waited before, and was not granted it. */
  lemma NotGrantedWaits(w: L.World, ids: seq<nat>, gone: nat, w1: L.World, w2: L.World, granted: set<nat>, k: string, i: nat)
    requires |ids| == |w.reqs| && gone < |w.reqs| && G.Left(w, gone, w1)
    requires G.GrantedTo(w1, ids, w.reqs[gone].worker, granted, |ids|, w2) && G.Waits(w2, k, i)
    ensures i != gone && G.Waits(w, k, i) && (k == w.reqs[gone].worker ==> ids[i] !in granted)
  {
    assert i != gone && w1.reqs[i] == w.reqs[i];
  }

  /** Passing a slot on grants it or leaves the line as it is for everybody who still waits. */
  lemma PassOnKeepsLine(c: Q.Config, j: G.Joint, gone: nat, w1: L.World, j': G.Joint, k: string, i: nat)
    requires G.Inv(c, j) && gone < |j.w.reqs| && G.Holds(j.w, j.w.reqs[gone].worker, gone)
    requires G.Left(j.w, gone, w1) && L.Inv(w1) && j' == G.PassOn(c, j, gone, w1)
    requires Listed(j, k, i)
    ensures Listed(j', k, i)
  {
    var k0 := j.w.reqs[gone].worker;
    var q := G.QueueOf(j, k0);
    var q' := Q.GiveBack(c, q, j.ids[gone]);
    GoneHeld(c, j, k0, gone);
    G.GrantAllIs(w1, j.ids, k0, q'.held - q.held, |j.ids|);
    PassedKeepsLine(c, j, gone, w1, j', k, i);
  }

  lemma PassedKeepsLine(c: Q.Config, j: G.Joint, gone: nat, w1: L.World, j': G.Joint, k: string, i: nat)
    requires |j.ids| == |j.w.reqs| && gone < |j.w.reqs| && G.Left(j.w, gone, w1)
    requires var q := G.QueueOf(j, j.w.reqs[gone].worker);
             && Q.Fresh(q) && j.ids[gone] in q.held
             && j'.ids == j.ids && j'.queues == j.queues[j.w.reqs[gone].worker := Q.GiveBack(c, q, j.ids[gone])]
             && G.GrantedTo(w1, j.ids, j.w.reqs[gone].worker, Q.GiveBack(c, q, j.ids[gone]).held - q.held, |j.ids|, j'.w)
    requires Listed(j, k, i)
    ensures Listed(j', k, i)
  {
    var q := G.QueueOf(j, j.w.reqs[gone].worker);
    if G.Waits(j'.w, k, i) {
      NotGrantedWaits(j.w, j.ids, gone, w1, j'.w, Q.GiveBack(c, q, j.ids[gone]).held - q.held, k, i);
      if k == j.w.reqs[gone].worker {
        GivenBackKeepsLine(c, q, j.ids[gone], j.ids[i]);
      }
    }
  }

  lemma GoneHeld(c: Q.Config, j: G.Joint, k: string, gone: nat)
    requires G.Inv(c, j) && G.Holds(j.w, k, gone)
    ensures gone < |j.ids| && Q.Fresh(G.QueueOf(j, k)) && j.ids[gone] in G.QueueOf(j, k).held
  {
    assert G.Good(c, j.w, j.ids, k, G.QueueOf(j, k));
  }

  /** No other request of worker `k` has the identity of this one. */
  ghost predicate OwnId(j: G.Joint, k: string, other: nat) {
    && other < |j.ids| == |j.w.reqs|
    && forall i: nat :: G.Owns(j.w, k, i) && i != other ==> j.ids[i] != j.ids[other]
  }

  lemma DifferentIds(c: Q.Config, j: G.Joint, k: string, other: nat)
    requires G.Inv(c, j) && G.Owns(j.w, k, other)
    ensures OwnId(j, k, other)
  {
    assert G.Good(c, j.w, j.ids, k, G.QueueOf(j, k));
  }

  /** The newcomer does not wait, and the line of its worker is as it was. */
  lemma ElseKeepsListed(j: G.Joint, newcomer: nat, j': G.Joint, k: string, i: nat)
    requires G.OnlyAt(j.w, newcomer, j'.w) && |j.ids| == |j.w.reqs| == |j'.ids|
    requires forall v :: !G.Waits(j'.w, v, newcomer)
    requires forall n :: 0 <= n < |j.ids| && n != newcomer ==> j'.ids[n] == j.ids[n]
    requires G.QueueOf(j', k).waiting == G.QueueOf(j, k).waiting
    requires Listed(j, k, i)
    ensures Listed(j', k, i)
  {
    if G.Waits(j'.w, k, i) {
      assert i != newcomer && j'.w.reqs[i] == j.w.reqs[i];
    }
  }

  lemma GrantedKeepsListed(c: Q.Config, j: G.Joint, m: G.Move, placed: L.World, j': G.Joint, k: string, i: nat)
    requires m.Enter? && G.OnlyAt(j.w, m.i, placed) && L.Inv(placed) && G.Waits(placed, m.worker, m.i)
    requires |j.ids| == |j.w.reqs| && m.item.Arrive? && Q.Answer(c, G.QueueOf(j, m.worker)).Granted?
    requires j' == G.Joint(G.Try(placed, m.i, L.Grant), j.queues[m.worker := Q.Admit(c, G.QueueOf(j, m.worker), m.item)],
                           j.ids[m.i := G.QueueOf(j, m.worker).nextId])
    requires Listed(j, k, i)
    ensures Listed(j', k, i)
  {
    G.GrantOne(placed, m.worker, m.i);
    ElseKeepsListed(j, m.i, j', k, i);
  }

  lemma FullKeepsListed(c: Q.Config, j: G.Joint, m: G.Move, placed: L.World, j': G.Joint, k: string, i: nat)
    requires m.Enter? && G.OnlyAt(j.w, m.i, placed) && L.Inv(placed) && G.Waits(placed, m.worker, m.i)
    requires |j.ids| == |j.w.reqs| && m.item.Arrive? && Q.Answer(c, G.QueueOf(j, m.worker)).QueueFull?
    requires j' == G.Joint(G.Try(placed, m.i, L.QueueReject(m.overflow)),
                           j.queues[m.worker := Q.Admit(c, G.QueueOf(j, m.worker), m.item)], j.ids)
    requires Listed(j, k, i)
    ensures Listed(j', k, i)
  {
    G.RejectedLeaves(placed, m.i, m.overflow);
    G.OnlyAtTwice(j.w, m.i, placed, j'.w);
    ElseKeepsListed(j, m.i, j', k, i);
  }

  lemma EnterKeepsListed(c: Q.Config, j: G.Joint, m: G.Move, j': G.Joint, k: string, i: nat)
    requires G.Inv(c, j) && m.Enter? && G.CanMove(j, m) && j' == G.Step(c, j, m)
    requires Listed(j, k, i) && !EndsWait(c, m, i)
    ensures Listed(j', k, i)
  {
    var placed := L.Step(j.w, m.i, L.Place(m.quota, m.worker));
    G.PlacedIs(j.w, m.i, m.quota, m.worker);
    match Q.Answer(c, G.QueueOf(j, m.worker))
    case Granted(id) => GrantedKeepsListed(c, j, m, placed, j', k, i);
    case QueueFull => FullKeepsListed(c, j, m, placed, j', k, i);
    case Queued(id) => QueuedKeepsListed(c, j, m, placed, j', k, i);
  }

  lemma QueuedKeepsListed(c: Q.Config, j: G.Joint, m: G.Move, placed: L.World, j': G.Joint, k: string, i: nat)
    requires m.Enter? && m.item.Arrive? && G.OnlyAt(j.w, m.i, placed) && G.Waits(placed, m.worker, m.i) && m.i < |j.ids|
    requires Q.Answer(c, G.QueueOf(j, m.worker)).Queued?
    requires j' == G.Joint(placed, j.queues[m.worker := Q.Admit(c, G.QueueOf(j, m.worker), m.item)],
                           j.ids[m.i := G.QueueOf(j, m.worker).nextId])
    requires Listed(j, k, i) && !EndsWait(c, m, i)
    ensures Listed(j', k, i)
  {
    var q, q' := G.QueueOf(j, m.worker), G.QueueOf(j', m.worker);
    var item := Q.NewItem(c, q.nextId, m.item);
    assert q'.waiting == q.waiting + [item] && item in q'.waiting;
    if i != m.i && G.Waits(j'.w, k, i) {
      assert placed.reqs[i] == j.w.reqs[i];
      if k == m.worker {
        var x :| x in q.waiting && !x.cancelled && x.id == j.ids[i];
        assert x in q'.waiting;
      }
    }
  }

  /** Request `other` leaves the line of its worker, or is cancelled there; nobody else does. */
  lemma OthersListed(j: G.Joint, other: nat, k0: string, q': Q.Queue, j': G.Joint, k: string, i: nat)
    requires OwnId(j, k0, other) && G.OnlyAt(j.w, other, j'.w) && LineBut(G.QueueOf(j, k0), j.ids[other], q')
    requires j'.ids == j.ids && j'.queues == j.queues[k0 := q']
    requires i != other || !G.Waits(j'.w, k, other)
    requires Listed(j, k, i)
    ensures Listed(j', k, i)
  {
    if G.Waits(j'.w, k, i) {
      assert i != other && j'.w.reqs[i] == j.w.reqs[i];
      assert G.Waits(j.w, k, i);
      assert k == k0 ==> G.Owns(j.w, k0, i);
    }
  }

  lemma ExpireKeepsListed(c: Q.Config, j: G.Joint, m: G.Move, j': G.Joint, k: string, i: nat)
    requires G.Inv(c, j) && m.Expire? && G.CanMove(j, m) && j' == G.Step(c, j, m)
    requires Listed(j, k, i) && m.i != i
    ensures Listed(j', k, i)
  {
    var k0 := j.w.reqs[m.i].worker;
    DifferentIds(c, j, k0, m.i);
    G.NothingChanges(j.w, m.i);
    LineButOne(c, G.QueueOf(j, k0), j.ids[m.i]);
    OthersListed(j, m.i, k0, G.Expired(c, G.QueueOf(j, k0), j.ids[m.i]), j', k, i);
  }

  lemma GiveUpKeepsListed(c: Q.Config, j: G.Joint, m: G.Move, j': G.Joint, k: string, i: nat)
    requires G.Inv(c, j) && m.GiveUp? && G.CanMove(j, m) && j' == G.Step(c, j, m)
    requires Listed(j, k, i)
    ensures Listed(j', k, i)
  {
    var k0 := j.w.reqs[m.i].worker;
    DifferentIds(c, j, k0, m.i);
    G.RejectedLeaves(j.w, m.i, m.overflow);
    LineButOne(c, G.QueueOf(j, k0), j.ids[m.i]);
    OthersListed(j, m.i, k0, Q.Step(c, G.QueueOf(j, k0), Q.Drop(j.ids[m.i])), j', k, i);
  }

  lemma WaitingCancelKeepsListed(c: Q.Config, j: G.Joint, m: G.Move, j': G.Joint, k: string, i: nat)
    requires G.Inv(c, j) && m.Cancel? && G.CanMove(j, m) && j' == G.Step(c, j, m) && j.w.reqs[m.i].ticket != L.Held
    requires Listed(j, k, i)
    ensures Listed(j', k, i)
  {
    var k0 := j.w.reqs[m.i].worker;
    G.CancelledLeaves(j.w, m.i);
    DifferentIds(c, j, k0, m.i);
    LineButOne(c, G.QueueOf(j, k0), j.ids[m.i]);
    OthersListed(j, m.i, k0, Q.Step(c, G.Expired(c, G.QueueOf(j, k0), j.ids[m.i]), Q.Drop(j.ids[m.i])), j', k, i);
  }

  lemma CancelKeepsListed(c: Q.Config, j: G.Joint, m: G.Move, j': G.Joint, k: string, i: nat)
    requires G.Inv(c, j) && m.Cancel? && G.CanMove(j, m) && j' == G.Step(c, j, m)
    requires Listed(j, k, i)
    ensures Listed(j', k, i)
  {
    if j.w.reqs[m.i].ticket == L.Held {
      G.CancelledLeaves(j.w, m.i);
      PassOnKeepsLine(c, j, m.i, L.Step(j.w, m.i, L.QueueCancel), j', k, i);
    } else {
      WaitingCancelKeepsListed(c, j, m, j', k, i);
    }
  }

  lemma DoKeepsListed(c: Q.Config, j: G.Joint, m: G.Move, j': G.Joint, k: string, i: nat)
    requires G.Inv(c, j) && m.Do? && G.CanMove(j, m) && j' == G.Step(c, j, m)
    requires Listed(j, k, i)
    ensures Listed(j', k, i)
  {
    var w := L.Step(j.w, m.i, m.e);
    G.SegmentPasses(j.w, m.i, m.e);
    if j.w.reqs[m.i].ticket == L.Held && w.reqs[m.i].ticket == L.Returned {
      PassOnKeepsLine(c, j, m.i, w, j', k, i);
    } else if G.Waits(j'.w, k, i) {
      assert i != m.i && j'.w.reqs[i] == j.w.reqs[i];
    }
  }

  lemma StepKeepsListed(c: Q.Config, j: G.Joint, m: G.Move, j': G.Joint, k: string, i: nat)
    requires G.Inv(c, j) && G.CanMove(j, m) && j' == G.Step(c, j, m)
    requires Listed(j, k, i) && !EndsWait(c, m, i)
    ensures Listed(j', k, i)
  {
    match m
    case Arrive(_, _) =>
      assert i < |j.w.reqs| ==> j'.w.reqs[i] == j.w.reqs[i];
    case Enter(_, _, _, _, _) => EnterKeepsListed(c, j, m, j', k, i);
    case Expire(_) => ExpireKeepsListed(c, j, m, j', k, i);
    case GiveUp(_, _) => GiveUpKeepsListed(c, j, m, j', k, i);
    case Cancel(_) => CancelKeepsListed(c, j, m, j', k, i);
    case Do(_, _) => DoKeepsListed(c, j, m, j', k, i);
  }

  // ---- Main results ----

  /** In every interleaving, a request that waits for a worker and whose time is not up stands in line there, alive. */
  lemma {:induction false} NoWaiterIsLost(c: Q.Config, moves: seq<G.Move>, k: string, i: nat)
    requires !Lapsed(c, moves, i)
    ensures Listed(G.Exec(c, moves), k, i)
  {
    if moves == [] {
    } else {
      var front, m := moves[..|moves| - 1], moves[|moves| - 1];
      NoWaiterIsLost(c, front, k, i);
      if G.CanMove(G.Exec(c, front), m) {
        StepKeepsListed(c, G.Exec(c, front), m, G.Exec(c, moves), k, i);
      }
    }
  }

  /** So nobody waits in vain: while such a request waits for a worker, every slot of that worker is held by a request. */
  lemma WaitsOnlyForHeldSlots(c: Q.Config, moves: seq<G.Move>, k: string, i: nat)
    requires !Lapsed(c, moves, i) && G.Waits(G.Exec(c, moves).w, k, i)
    ensures Weigh(G.Exec(c, moves).w.reqs, L.OfSlots(k)) >= c.maxInflight
  {
    NoWaiterIsLost(c, moves, k, i);
    G.HandlerIsBounded(c, moves, k);
  }
}
