/**
 * The request handler together with the dispatch queues of its workers (services/gateway/main.py over
 * services/gateway/queueing.py): a grant by a queue is a grant to exactly one request, and a request
 * that gives its ticket back gives a slot back.
 *
 * So the bounds of the queue bind the handler, and no slot is lost between the two.
 */
module Gateway {
  import opened Basics
  import L = Lifecycle
  import Q = Queueing

  /** `ids[i]` is the identity that the queue of its worker gave to request `i`. */
  datatype Joint = Joint(w: L.World, queues: map<string, Q.Queue>, ids: seq<nat>)

  const Start: Joint := Joint(L.Idle, map[], [])

  function QueueOf(j: Joint, k: string): Q.Queue {
    Get(j.queues, k, Q.Empty)
  }

  predicate Holds(w: L.World, k: string, i: int) {
    0 <= i < |w.reqs| && w.reqs[i].worker == k && w.reqs[i].ticket == L.Held
  }

  predicate Waits(w: L.World, k: string, i: int) {
    0 <= i < |w.reqs| && w.reqs[i].worker == k && w.reqs[i].phase.Queued? && w.reqs[i].ticket == L.Never
  }

  predicate Owns(w: L.World, k: string, i: int) {
    Holds(w, k, i) || Waits(w, k, i)
  }

  /** The tickets out are those of the requests that hold one, and every live waiter is a waiting request. */
  ghost predicate Linked(w: L.World, ids: seq<nat>, k: string, q: Q.Queue)
    requires |ids| == |w.reqs|
  {
    && (forall i :: Owns(w, k, i) ==> ids[i] < q.nextId)
    && (forall i, m :: Owns(w, k, i) && Owns(w, k, m) && i != m ==> ids[i] != ids[m])
    && (forall i :: Holds(w, k, i) ==> ids[i] in q.held)
    && (forall t :: t in q.held ==> HeldBySome(w, ids, k, t))
    && (forall x :: x in q.waiting && !x.cancelled ==> AwaitedBySome(w, ids, k, x.id))
  }

  ghost predicate HeldBySome(w: L.World, ids: seq<nat>, k: string, t: nat)
    requires |ids| == |w.reqs|
  {
    exists i :: Holds(w, k, i) && ids[i] == t
  }

  ghost predicate AwaitedBySome(w: L.World, ids: seq<nat>, k: string, t: nat)
    requires |ids| == |w.reqs|
  {
    exists i :: Waits(w, k, i) && ids[i] == t
  }

  /** One worker: its queue is sound and linked to the requests. */
  ghost predicate Good(c: Q.Config, w: L.World, ids: seq<nat>, k: string, q: Q.Queue)
    requires |ids| == |w.reqs|
  {
    Q.Inv(c, q) && Q.WorkConserving(c, q) && Linked(w, ids, k, q)
  }

  ghost predicate Inv(c: Q.Config, j: Joint) {
    && |j.ids| == |j.w.reqs| && L.Inv(j.w)
    && forall k :: Good(c, j.w, j.ids, k, QueueOf(j, k))
  }

  // ---- Moves ----

  function Try(w: L.World, i: nat, e: L.Event): L.World {
    if L.CanStep(w, i, e) then L.Step(w, i, e) else w
  }

  /** Of the first `n` requests, those of worker `k` whose identity was just granted get their ticket. */
  function GrantAll(w: L.World, ids: seq<nat>, k: string, granted: set<nat>, n: nat): L.World
    requires n <= |ids|
  {
    if n == 0 then w
    else
      var w1 := GrantAll(w, ids, k, granted, n - 1);
      if Waits(w1, k, n - 1) && ids[n - 1] in granted then Try(w1, n - 1, L.Grant) else w1
  }

  /** The slot of request `i` goes back to its queue, which may grant it on; `w` is the world without the ticket. */
  function PassOn(c: Q.Config, j: Joint, i: nat, w: L.World): Joint
    requires i < |j.ids| && i < |j.w.reqs|
  {
    var k := j.w.reqs[i].worker;
    var q, q' := QueueOf(j, k), Q.GiveBack(c, QueueOf(j, k), j.ids[i]);
    Joint(GrantAll(w, j.ids, k, q'.held - q.held, |j.ids|), j.queues[k := q'], j.ids)
  }

  datatype Move =
    | Arrive(bucket: string, tokens: nat)
    | Enter(i: nat, quota: bool, worker: string, item: Q.Event, overflow: bool)  // placed; the queue answers at once
    | Expire(i: nat)                                                          // the waiter's future is cancelled
    | GiveUp(i: nat, overflow: bool)                                          // the handler of a timed out waiter runs
    | Cancel(i: nat)                                                          // the client went away while it was queued
    | Do(i: nat, e: L.Event)                                                  // any other segment of the handler

  predicate Elsewhere(e: L.Event) {
    !e.Arrive? && !e.Place? && !e.Grant? && !e.QueueReject? && !e.QueueCancel?
  }

  /** The clock is monotone, and a waiter times out only if its future was cancelled. */
  predicate CanMove(j: Joint, m: Move) {
    match m
    case Arrive(_, _) => true
    case Enter(i, quota, worker, item, _) =>
      L.CanStep(j.w, i, L.Place(quota, worker)) && item.Arrive? && item.now >= QueueOf(j, worker).clock
    case Expire(i) => i < |j.w.reqs| && i < |j.ids| && Waits(j.w, j.w.reqs[i].worker, i)
    case GiveUp(i, _) =>
      && i < |j.w.reqs| && i < |j.ids| && Waits(j.w, j.w.reqs[i].worker, i)
      && forall x :: x in QueueOf(j, j.w.reqs[i].worker).waiting && x.id == j.ids[i] ==> x.cancelled
    case Cancel(i) => i < |j.ids| && L.CanStep(j.w, i, L.QueueCancel)
    case Do(i, e) => i < |j.ids| && Elsewhere(e) && L.CanStep(j.w, i, e)
  }

  function Entered(c: Q.Config, j: Joint, i: nat, quota: bool, worker: string, item: Q.Event, overflow: bool): Joint
    requires item.Arrive? && i < |j.ids|
  {
    var q := QueueOf(j, worker);
    var placed := Try(j.w, i, L.Place(quota, worker));
    var queues := j.queues[worker := Q.Admit(c, q, item)];
    match Q.Answer(c, q)
    case Granted(id) => Joint(Try(placed, i, L.Grant), queues, j.ids[i := id])
    case QueueFull => Joint(Try(placed, i, L.QueueReject(overflow)), queues, j.ids)
    case Queued(id) => Joint(placed, queues, j.ids[i := id])
  }

  function Expired(c: Q.Config, q: Q.Queue, id: nat): Q.Queue {
    Q.Step(c, q, Q.Expire(id))
  }

  function Step(c: Q.Config, j: Joint, m: Move): Joint
    requires CanMove(j, m) && |j.ids| == |j.w.reqs|
  {
    match m
    case Arrive(bucket, tokens) => Joint(Try(j.w, 0, L.Event.Arrive(bucket, tokens)), j.queues, j.ids + [0])
    case Enter(i, quota, worker, item, overflow) => Entered(c, j, i, quota, worker, item, overflow)
    case Expire(i) =>
      var k := j.w.reqs[i].worker;
      j.(queues := j.queues[k := Expired(c, QueueOf(j, k), j.ids[i])])
    case GiveUp(i, overflow) =>
      var k := j.w.reqs[i].worker;
      Joint(Try(j.w, i, L.QueueReject(overflow)), j.queues[k := Q.Step(c, QueueOf(j, k), Q.Drop(j.ids[i]))], j.ids)
    case Cancel(i) =>
      var k := j.w.reqs[i].worker;
      if j.w.reqs[i].ticket == L.Held then PassOn(c, j, i, Try(j.w, i, L.QueueCancel))
      else
        var gone := Q.Step(c, Expired(c, QueueOf(j, k), j.ids[i]), Q.Drop(j.ids[i]));
        Joint(Try(j.w, i, L.QueueCancel), j.queues[k := gone], j.ids)
    case Do(i, e) =>
      var w := Try(j.w, i, e);
      if i < |w.reqs| && j.w.reqs[i].ticket == L.Held && w.reqs[i].ticket == L.Returned then PassOn(c, j, i, w)
      else j.(w := w)
  }

  // ---- What one segment of the handler does to a request ----

  predicate OnlyAt(w: L.World, i: nat, w': L.World) {
    |w'.reqs| == |w.reqs| && i < |w.reqs| && w'.reqs == w.reqs[i := w'.reqs[i]]
  }

  /** Outside the queue, the worker stays and the ticket stays or is given back. */
  predicate Passes(r: L.Req, r': L.Req) {
    && r'.worker == r.worker && !r'.phase.Queued? && (r.phase.Queued? ==> r.ticket == L.Held)
    && (r'.ticket == r.ticket || (r.ticket == L.Held && r'.ticket == L.Returned))
  }

  lemma StepsOnly(w: L.World, i: nat, e: L.Event)
    requires L.Inv(w) && L.CanStep(w, i, e) && !e.Arrive?
    ensures OnlyAt(w, i, L.Step(w, i, e)) && L.Inv(L.Step(w, i, e))
  {
    var w' := L.Step(w, i, e);
    assert L.Local(w.reqs[i]);
    L.StepKeepsInv(w, i, e, w');
    if L.BeforeDispatch(e) {
      L.EarlyStepIsFair(w, i, e, w');
    } else {
      L.LateStepIsFair(w, i, e, w');
    }
  }

  lemma EarlySegmentPasses(w: L.World, i: nat, e: L.Event)
    requires (e.Refuse? || e.Shed? || e.Resume?) && L.CanStep(w, i, e) && L.Local(w.reqs[i])
    ensures var w' := L.Step(w, i, e); |w'.reqs| == |w.reqs| && Passes(w.reqs[i], w'.reqs[i])
  {
    match e
    case Refuse =>
    case Shed(quota, overflow) => assert L.TakeLease(w, i, quota).reqs[i].ticket == w.reqs[i].ticket;
    case Resume(stream) => assert L.LeaveQueue(w, i).reqs[i].ticket == w.reqs[i].ticket;
  }

  lemma WorkerSegmentPasses(w: L.World, i: nat, e: L.Event)
    requires L.AtWorker(e) && L.CanStep(w, i, e) && L.Local(w.reqs[i])
    ensures var w' := L.Step(w, i, e); |w'.reqs| == |w.reqs| && Passes(w.reqs[i], w'.reqs[i])
  {
    match e
    case WorkerAnswers(status, overflow) => assert L.FreeWorker(w, i).reqs[i] == L.Freed(w.reqs[i]);
    case OpenFails(status) => assert L.FreeWorker(w, i).reqs[i] == L.Freed(w.reqs[i]);
    case Closed(overflow) =>
    case Open =>
  }

  lemma EndSegmentPasses(w: L.World, i: nat, e: L.Event)
    requires (e.BodyEnds? || e.Cleanup?) && L.CanStep(w, i, e) && L.Local(w.reqs[i])
    ensures var w' := L.Step(w, i, e); |w'.reqs| == |w.reqs| && Passes(w.reqs[i], w'.reqs[i])
  {
    assert L.FreeWorker(w, i).reqs[i] == L.Freed(w.reqs[i]);
  }

  lemma OverflowSegmentPasses(w: L.World, i: nat, e: L.Event)
    requires (e.OverflowFails? || e.OverflowAnswers? || e.OverflowOpens?) && L.CanStep(w, i, e) && L.Local(w.reqs[i])
    ensures var w' := L.Step(w, i, e); |w'.reqs| == |w.reqs| && Passes(w.reqs[i], w'.reqs[i])
  {
  }

  lemma SegmentPasses(w: L.World, i: nat, e: L.Event)
    requires L.Inv(w) && L.CanStep(w, i, e) && Elsewhere(e)
    ensures OnlyAt(w, i, L.Step(w, i, e)) && L.Inv(L.Step(w, i, e)) && Passes(w.reqs[i], L.Step(w, i, e).reqs[i])
  {
    StepsOnly(w, i, e);
    assert L.Local(w.reqs[i]);
    if e.Refuse? || e.Shed? || e.Resume? {
      EarlySegmentPasses(w, i, e);
    } else if L.AtWorker(e) {
      WorkerSegmentPasses(w, i, e);
    } else if e.BodyEnds? || e.Cleanup? {
      EndSegmentPasses(w, i, e);
    } else {
      OverflowSegmentPasses(w, i, e);
    }
  }

  // ---- What the queue does to its tickets ----

  /** Whoever `q'` holds or still keeps waiting was there in `q`. */
  ghost predicate Flows(q: Q.Queue, q': Q.Queue) {
    && q'.nextId == q.nextId && q.held <= q'.held
    && (forall t :: t in q'.held && t !in q.held ==> exists x :: x in q.waiting && !x.cancelled && x.id == t)
    && (forall x :: x in q'.waiting && !x.cancelled ==> exists y :: y in q.waiting && !y.cancelled && y.id == x.id)
  }

  lemma TakeFlows(c: Q.Config, q: Q.Queue, k: nat)
    requires k < |q.waiting|
    ensures Flows(q, Q.Take(q, k))
  {
    var q', rest := Q.Take(q, k), Without(q.waiting, k);
    assert q.waiting[k] in q.waiting;
    assert forall m :: 0 <= m < |rest| ==> rest[m] == q.waiting[if m < k then m else m + 1];
    forall x | x in q'.waiting && !x.cancelled
      ensures exists y :: y in q.waiting && !y.cancelled && y.id == x.id
    {
      var m :| 0 <= m < |q'.waiting| && q'.waiting[m] == x;
      assert rest[m] in q.waiting && rest[m].id == x.id && !rest[m].cancelled;
    }
  }

  lemma FlowsTwice(a: Q.Queue, b: Q.Queue, d: Q.Queue)
    requires Flows(a, b) && Flows(b, d)
    ensures Flows(a, d)
  {
  }

  lemma {:induction false} DrainFlows(c: Q.Config, q: Q.Queue)
    ensures Flows(q, Q.Drain(c, q))
    decreases |q.waiting|
  {
    if !Q.CanPump(c, q) {
    } else {
      TakeFlows(c, q, Q.Best(c, q.waiting));
      DrainFlows(c, Q.PumpOne(c, q));
      FlowsTwice(q, Q.PumpOne(c, q), Q.Drain(c, q));
    }
  }

  // ---- Granting ----

  lemma GrantOne(w: L.World, k: string, m: nat)
    requires L.Inv(w) && Waits(w, k, m)
    ensures L.Inv(Try(w, m, L.Grant)) && Try(w, m, L.Grant).reqs == w.reqs[m := w.reqs[m].(ticket := L.Held)]
  {
    StepsOnly(w, m, L.Grant);
  }

  predicate GrantedTo(w: L.World, ids: seq<nat>, k: string, granted: set<nat>, n: nat, w': L.World)
    requires |ids| == |w.reqs|
  {
    |w'.reqs| == |w.reqs| &&
    forall m :: 0 <= m < |w.reqs| ==>
      w'.reqs[m] == if m < n && Waits(w, k, m) && ids[m] in granted then w.reqs[m].(ticket := L.Held) else w.reqs[m]
  }

  lemma {:induction false} GrantAllIs(w: L.World, ids: seq<nat>, k: string, granted: set<nat>, n: nat)
    requires L.Inv(w) && n <= |ids| == |w.reqs|
    ensures L.Inv(GrantAll(w, ids, k, granted, n)) && GrantedTo(w, ids, k, granted, n, GrantAll(w, ids, k, granted, n))
    decreases n
  {
    if n == 0 {
    } else {
      GrantAllIs(w, ids, k, granted, n - 1);
      var w1 := GrantAll(w, ids, k, granted, n - 1);
      assert Waits(w1, k, n - 1) <==> Waits(w, k, n - 1);
      if Waits(w1, k, n - 1) && ids[n - 1] in granted {
        GrantOne(w1, k, n - 1);
      }
    }
  }

  // ---- The link is kept ----

  /** The tickets and waiters of worker `k` are all as they were. */
  ghost predicate SamePlaces(w: L.World, ids: seq<nat>, w': L.World, ids': seq<nat>, k: string)
    requires |ids| == |w.reqs| && |ids'| == |w'.reqs|
  {
    && (forall i :: (Holds(w', k, i) <==> Holds(w, k, i)) && (Waits(w', k, i) <==> Waits(w, k, i)))
    && (forall i :: Owns(w, k, i) ==> i < |ids'| && ids'[i] == ids[i])
  }

  lemma HeldStays(w: L.World, ids: seq<nat>, w': L.World, ids': seq<nat>, k: string, t: nat)
    requires |ids| == |w.reqs| && |ids'| == |w'.reqs| && SamePlaces(w, ids, w', ids', k) && HeldBySome(w, ids, k, t)
    ensures HeldBySome(w', ids', k, t)
  {
    var i :| Holds(w, k, i) && ids[i] == t;
    assert Owns(w, k, i) && Holds(w', k, i);
  }

  lemma AwaitedStays(w: L.World, ids: seq<nat>, w': L.World, ids': seq<nat>, k: string, t: nat)
    requires |ids| == |w.reqs| && |ids'| == |w'.reqs| && SamePlaces(w, ids, w', ids', k) && AwaitedBySome(w, ids, k, t)
    ensures AwaitedBySome(w', ids', k, t)
  {
    var i :| Waits(w, k, i) && ids[i] == t;
    assert Owns(w, k, i) && Waits(w', k, i);
  }

  lemma LinkedSame(w: L.World, ids: seq<nat>, w': L.World, ids': seq<nat>, k: string, q: Q.Queue)
    requires |ids| == |w.reqs| && |ids'| == |w'.reqs| && Linked(w, ids, k, q) && SamePlaces(w, ids, w', ids', k)
    ensures Linked(w', ids', k, q)
  {
    forall i | Owns(w', k, i)
      ensures Owns(w, k, i) && ids'[i] == ids[i]
    {
      assert Holds(w', k, i) <==> Holds(w, k, i);
    }
    forall t | t in q.held
      ensures HeldBySome(w', ids', k, t)
    {
      HeldStays(w, ids, w', ids', k, t);
    }
    forall x | x in q.waiting && !x.cancelled
      ensures AwaitedBySome(w', ids', k, x.id)
    {
      AwaitedStays(w, ids, w', ids', k, x.id);
    }
  }

  /** Request `i` no longer holds its ticket; the others are as they were. */
  predicate Left(w: L.World, i: nat, w1: L.World) {
    OnlyAt(w, i, w1) && w1.reqs[i].worker == w.reqs[i].worker && w1.reqs[i].ticket == L.Returned
  }

  /** On the worker itself: the slot of `i` is passed on by the queue, to requests that waited for it. */
  lemma PassOnLinks(c: Q.Config, w: L.World, ids: seq<nat>, i: nat, w1: L.World, w2: L.World, q: Q.Queue, q': Q.Queue)
    requires |ids| == |w.reqs| && i < |w.reqs| && Holds(w, w.reqs[i].worker, i) && Left(w, i, w1) && L.Inv(w1)
    requires Linked(w, ids, w.reqs[i].worker, q) && Q.Inv(c, q) && Q.Inv(c, q')
    requires Flows(q.(held := q.held - {ids[i]}), q') && q'.held !! {ids[i]}
    requires w2 == GrantAll(w1, ids, w.reqs[i].worker, q'.held - q.held, |ids|) && |w2.reqs| == |ids|
    ensures Linked(w2, ids, w.reqs[i].worker, q')
  {
    var k, granted := w.reqs[i].worker, q'.held - q.held;
    GrantAllIs(w1, ids, k, granted, |ids|);
    forall t | t in q'.held
      ensures HeldBySome(w2, ids, k, t)
    {
      HolderAfter(w, ids, i, w1, w2, q, q', t);
    }
    forall x | x in q'.waiting && !x.cancelled
      ensures AwaitedBySome(w2, ids, k, x.id)
    {
      StillWaiting(w, ids, i, w1, w2, q, q', x);
    }
    OwnersAfter(w, ids, i, w1, w2, q, q');
  }

  lemma HolderAfter(w: L.World, ids: seq<nat>, i: nat, w1: L.World, w2: L.World, q: Q.Queue, q': Q.Queue, t: nat)
    requires |ids| == |w.reqs| == |w1.reqs| == |w2.reqs| && i < |w.reqs| && Holds(w, w.reqs[i].worker, i) && Left(w, i, w1)
    requires Linked(w, ids, w.reqs[i].worker, q) && Flows(q.(held := q.held - {ids[i]}), q') && t in q'.held
    requires q'.held !! {ids[i]}
    requires GrantedTo(w1, ids, w.reqs[i].worker, q'.held - q.held, |ids|, w2)
    ensures HeldBySome(w2, ids, w.reqs[i].worker, t)
  {
    var k := w.reqs[i].worker;
    if t in q.held {
      assert HeldBySome(w, ids, k, t);
      var m :| Holds(w, k, m) && ids[m] == t;
      assert m != i && Holds(w2, k, m);
    } else {
      var x :| x in q.waiting && !x.cancelled && x.id == t;
      GrantReaches(w, ids, i, w1, w2, q, q', x);
    }
  }

  /** Nobody but the other owners owns anything, and who holds now has a ticket that is out. */
  lemma OwnersAfter(w: L.World, ids: seq<nat>, i: nat, w1: L.World, w2: L.World, q: Q.Queue, q': Q.Queue)
    requires |ids| == |w.reqs| == |w1.reqs| == |w2.reqs| && i < |w.reqs| && Holds(w, w.reqs[i].worker, i) && Left(w, i, w1)
    requires Linked(w, ids, w.reqs[i].worker, q) && Flows(q.(held := q.held - {ids[i]}), q')
    requires GrantedTo(w1, ids, w.reqs[i].worker, q'.held - q.held, |ids|, w2)
    ensures forall m :: Owns(w2, w.reqs[i].worker, m) ==>
              m != i && Owns(w, w.reqs[i].worker, m) && (Holds(w2, w.reqs[i].worker, m) ==> ids[m] in q'.held)
  {
    var k := w.reqs[i].worker;
    assert w2.reqs[i] == w1.reqs[i];
    forall m | Owns(w2, k, m)
      ensures m != i && Owns(w, k, m) && (Holds(w2, k, m) ==> ids[m] in q'.held)
    {
      assert m != i && w1.reqs[m] == w.reqs[m];
      assert Owns(w, k, i) && (Owns(w, k, m) ==> ids[m] != ids[i]);
    }
  }

  /** A granted identity belongs to a request that waited for it, which now holds it. */
  lemma GrantReaches(w: L.World, ids: seq<nat>, i: nat, w1: L.World, w2: L.World, q: Q.Queue, q': Q.Queue, x: Q.Item)
    requires |ids| == |w.reqs| == |w1.reqs| == |w2.reqs| && i < |w.reqs| && Holds(w, w.reqs[i].worker, i) && Left(w, i, w1)
    requires Linked(w, ids, w.reqs[i].worker, q) && x in q.waiting && !x.cancelled
    requires x.id in q'.held && x.id !in q.held
    requires forall m :: 0 <= m < |w1.reqs| && Waits(w1, w.reqs[i].worker, m) && ids[m] in q'.held - q.held ==>
               w2.reqs[m] == w1.reqs[m].(ticket := L.Held)
    ensures HeldBySome(w2, ids, w.reqs[i].worker, x.id)
  {
    var k := w.reqs[i].worker;
    assert AwaitedBySome(w, ids, k, x.id);
    var m :| Waits(w, k, m) && ids[m] == x.id;
    assert m != i && w1.reqs[m] == w.reqs[m] && Waits(w1, k, m);
    assert Holds(w2, k, m);
  }

  /** A waiter that stays in the queue is still awaited by its request. */
  lemma StillWaiting(w: L.World, ids: seq<nat>, i: nat, w1: L.World, w2: L.World, q: Q.Queue, q': Q.Queue, x: Q.Item)
    requires |ids| == |w.reqs| == |w1.reqs| == |w2.reqs| && i < |w.reqs| && Holds(w, w.reqs[i].worker, i) && Left(w, i, w1)
    requires Linked(w, ids, w.reqs[i].worker, q) && x.id !in q'.held
    requires exists y :: y in q.waiting && !y.cancelled && y.id == x.id
    requires forall m :: 0 <= m < |w1.reqs| && !(ids[m] in q'.held - q.held) ==> w2.reqs[m] == w1.reqs[m]
    ensures AwaitedBySome(w2, ids, w.reqs[i].worker, x.id)
  {
    var k := w.reqs[i].worker;
    var y :| y in q.waiting && !y.cancelled && y.id == x.id;
    assert AwaitedBySome(w, ids, k, y.id);
    var m :| Waits(w, k, m) && ids[m] == x.id;
    assert m != i && w1.reqs[m] == w.reqs[m];
    assert Waits(w2, k, m);
  }

  /** A ticket that was out belongs to nobody who waits, so it is not handed out again. */
  lemma NotGrantedAgain(c: Q.Config, q: Q.Queue, q1: Q.Queue, q': Q.Queue, id: nat)
    requires Q.Inv(c, q) && id in q.held && q1.held == q.held - {id} && q1.waiting == q.waiting && Flows(q1, q')
    ensures q'.held !! {id}
  {
    assert Q.Fresh(q);
    assert forall x :: x in q.waiting ==> x.id !in q.held;
  }

  lemma PassOnIsGood(c: Q.Config, j: Joint, i: nat, w1: L.World, j': Joint)
    requires Inv(c, j) && i < |j.w.reqs| && Holds(j.w, j.w.reqs[i].worker, i) && Left(j.w, i, w1) && L.Inv(w1)
    requires j' == PassOn(c, j, i, w1)
    ensures L.Inv(j'.w) && |j'.w.reqs| == |j.ids| == |j'.ids|
    ensures Good(c, j'.w, j'.ids, j.w.reqs[i].worker, QueueOf(j', j.w.reqs[i].worker))
  {
    var k := j.w.reqs[i].worker;
    var q, q' := QueueOf(j, k), QueueOf(j', k);
    assert Good(c, j.w, j.ids, k, q);
    Q.GiveBackKeepsInv(c, q, j.ids[i]);
    assert j.ids[i] in q.held;
    var q1 := q.(held := q.held - {j.ids[i]}, inflight := q.inflight - 1);
    DrainFlows(c, q1);
    NotGrantedAgain(c, q, q1, q', j.ids[i]);
    GrantAllIs(w1, j.ids, k, q'.held - q.held, |j.ids|);
    PassOnLinks(c, j.w, j.ids, i, w1, j'.w, q, q');
  }

  lemma PassOnLeavesOthers(c: Q.Config, j: Joint, i: nat, w1: L.World, j': Joint, k': string)
    requires Inv(c, j) && i < |j.w.reqs| && Left(j.w, i, w1) && L.Inv(w1) && k' != j.w.reqs[i].worker
    requires j' == PassOn(c, j, i, w1)
    ensures |j'.w.reqs| == |j.ids| == |j'.ids| && Good(c, j'.w, j'.ids, k', QueueOf(j', k'))
  {
    var k := j.w.reqs[i].worker;
    var granted := QueueOf(j', k).held - QueueOf(j, k).held;
    assert Good(c, j.w, j.ids, k', QueueOf(j, k'));
    GrantAllIs(w1, j.ids, k, granted, |j.ids|);
    OtherWorkerSame(j.w, i, w1, j'.w, j.ids, k, k', granted);
    LinkedSame(j.w, j.ids, j'.w, j.ids, k', QueueOf(j, k'));
  }

  lemma OtherWorkerSame(w: L.World, i: nat, w1: L.World, w2: L.World, ids: seq<nat>, k: string, k': string, granted: set<nat>)
    requires |ids| == |w.reqs| && Left(w, i, w1) && w.reqs[i].worker == k && k' != k
    requires GrantedTo(w1, ids, k, granted, |ids|, w2)
    ensures SamePlaces(w, ids, w2, ids, k')
  {
    forall m | 0 <= m < |w.reqs|
      ensures (Holds(w2, k', m) <==> Holds(w, k', m)) && (Waits(w2, k', m) <==> Waits(w, k', m))
    {
      assert m != i ==> w1.reqs[m] == w.reqs[m];
    }
  }

  lemma PassOnKeepsInv(c: Q.Config, j: Joint, i: nat, w1: L.World)
    requires Inv(c, j) && i < |j.w.reqs| && Holds(j.w, j.w.reqs[i].worker, i) && Left(j.w, i, w1) && L.Inv(w1)
    ensures Inv(c, PassOn(c, j, i, w1))
  {
    var j' := PassOn(c, j, i, w1);
    PassOnIsGood(c, j, i, w1, j');
    forall k
      ensures Good(c, j'.w, j'.ids, k, QueueOf(j', k))
    {
      if k != j.w.reqs[i].worker {
        PassOnLeavesOthers(c, j, i, w1, j', k);
      }
    }
  }

  lemma DoKeepsInv(c: Q.Config, j: Joint, i: nat, e: L.Event)
    requires Inv(c, j) && CanMove(j, Do(i, e))
    ensures Inv(c, Step(c, j, Do(i, e)))
  {
    var w := L.Step(j.w, i, e);
    SegmentPasses(j.w, i, e);
    if j.w.reqs[i].ticket == L.Held && w.reqs[i].ticket == L.Returned {
      PassOnKeepsInv(c, j, i, w);
    } else {
      SamePlacesKeepInv(c, j, i, w);
    }
  }

  lemma PassingKeepsPlaces(w: L.World, ids: seq<nat>, i: nat, w': L.World, k: string)
    requires |ids| == |w.reqs| && OnlyAt(w, i, w') && Passes(w.reqs[i], w'.reqs[i]) && w'.reqs[i].ticket == w.reqs[i].ticket
    ensures SamePlaces(w, ids, w', ids, k)
  {
    forall m | 0 <= m < |w.reqs|
      ensures (Holds(w', k, m) <==> Holds(w, k, m)) && (Waits(w', k, m) <==> Waits(w, k, m))
    {
      assert m != i ==> w'.reqs[m] == w.reqs[m];
    }
  }

  lemma SamePlacesKeepInv(c: Q.Config, j: Joint, i: nat, w: L.World)
    requires Inv(c, j) && OnlyAt(j.w, i, w) && L.Inv(w)
    requires Passes(j.w.reqs[i], w.reqs[i]) && w.reqs[i].ticket == j.w.reqs[i].ticket
    ensures Inv(c, j.(w := w))
  {
    var j' := j.(w := w);
    forall k
      ensures Good(c, w, j.ids, k, QueueOf(j', k))
    {
      assert Good(c, j.w, j.ids, k, QueueOf(j, k));
      PassingKeepsPlaces(j.w, j.ids, i, w, k);
      LinkedSame(j.w, j.ids, w, j.ids, k, QueueOf(j, k));
    }
  }

  /** The queue of `k` lost live waiters, and maybe request `i` stopped waiting, nothing else. */
  lemma FewerLinked(w: L.World, ids: seq<nat>, i: nat, w': L.World, k: string, q: Q.Queue, q': Q.Queue)
    requires |ids| == |w.reqs| && Linked(w, ids, k, q) && OnlyAt(w, i, w') && Waits(w, k, i)
    requires w'.reqs[i] == w.reqs[i] || (w'.reqs[i].ticket == L.Never && !w'.reqs[i].phase.Queued?)
    requires q'.held == q.held && q'.nextId == q.nextId
    requires forall x :: x in q'.waiting && !x.cancelled ==> x.id != ids[i] && x in q.waiting
    ensures Linked(w', ids, k, q')
  {
    forall t | t in q'.held
      ensures HeldBySome(w', ids, k, t)
    {
      assert HeldBySome(w, ids, k, t);
      var m :| Holds(w, k, m) && ids[m] == t;
      assert Holds(w', k, m);
    }
    forall x | x in q'.waiting && !x.cancelled
      ensures AwaitedBySome(w', ids, k, x.id)
    {
      assert AwaitedBySome(w, ids, k, x.id);
      var m :| Waits(w, k, m) && ids[m] == x.id;
      assert m != i && Waits(w', k, m);
    }
    assert forall m :: Owns(w', k, m) ==> Owns(w, k, m) && (Holds(w', k, m) ==> Holds(w, k, m));
  }

  /** Only worker `k` is touched: the others keep their link. */
  lemma ElsewhereLinked(w: L.World, ids: seq<nat>, i: nat, w': L.World, k: string, k': string, q: Q.Queue)
    requires |ids| == |w.reqs| && Linked(w, ids, k', q) && OnlyAt(w, i, w') && k' != k
    requires w.reqs[i].worker == k == w'.reqs[i].worker
    ensures Linked(w', ids, k', q)
  {
    forall m | 0 <= m < |w.reqs|
      ensures (Holds(w', k', m) <==> Holds(w, k', m)) && (Waits(w', k', m) <==> Waits(w, k', m))
    {
      assert m != i ==> w'.reqs[m] == w.reqs[m];
    }
    LinkedSame(w, ids, w', ids, k', q);
  }

  lemma FewerIsGood(c: Q.Config, w: L.World, ids: seq<nat>, i: nat, w': L.World, k: string, q: Q.Queue, q': Q.Queue)
    requires |ids| == |w.reqs| && Good(c, w, ids, k, q) && OnlyAt(w, i, w') && Waits(w, k, i)
    requires w'.reqs[i] == w.reqs[i] || (w'.reqs[i].ticket == L.Never && !w'.reqs[i].phase.Queued?)
    requires Q.Inv(c, q') && Q.WorkConserving(c, q') && q'.held == q.held && q'.nextId == q.nextId
    requires forall x :: x in q'.waiting && !x.cancelled ==> x.id != ids[i] && x in q.waiting
    ensures Good(c, w', ids, k, q')
  {
    FewerLinked(w, ids, i, w', k, q, q');
  }

  lemma ElsewhereIsGood(c: Q.Config, w: L.World, ids: seq<nat>, i: nat, w': L.World, k: string, k': string, q: Q.Queue)
    requires |ids| == |w.reqs| && Good(c, w, ids, k', q) && OnlyAt(w, i, w') && k' != k
    requires w.reqs[i].worker == k == w'.reqs[i].worker
    ensures Good(c, w', ids, k', q)
  {
    ElsewhereLinked(w, ids, i, w', k, k', q);
  }

  lemma FewerKeepsInv(c: Q.Config, j: Joint, i: nat, w: L.World, q': Q.Queue)
    requires Inv(c, j) && i < |j.w.reqs| && Waits(j.w, j.w.reqs[i].worker, i) && OnlyAt(j.w, i, w) && L.Inv(w)
    requires w.reqs[i].worker == j.w.reqs[i].worker
    requires w.reqs[i] == j.w.reqs[i] || (w.reqs[i].ticket == L.Never && !w.reqs[i].phase.Queued?)
    requires var q := QueueOf(j, j.w.reqs[i].worker);
             && Q.Inv(c, q') && Q.WorkConserving(c, q') && q'.held == q.held && q'.nextId == q.nextId
             && forall x :: x in q'.waiting && !x.cancelled ==> x.id != j.ids[i] && x in q.waiting
    ensures Inv(c, Joint(w, j.queues[j.w.reqs[i].worker := q'], j.ids))
  {
    var k, j' := j.w.reqs[i].worker, Joint(w, j.queues[j.w.reqs[i].worker := q'], j.ids);
    assert Good(c, j.w, j.ids, k, QueueOf(j, k));
    FewerIsGood(c, j.w, j.ids, i, w, k, QueueOf(j, k), q');
    forall k'
      ensures Good(c, w, j.ids, k', QueueOf(j', k'))
    {
      if k' != k {
        assert Good(c, j.w, j.ids, k', QueueOf(j, k'));
        ElsewhereIsGood(c, j.w, j.ids, i, w, k, k', QueueOf(j, k'));
      }
    }
  }

  /** Cancelling and removing an entry leaves the other live waiters. */
  lemma ExpiredIs(c: Q.Config, q: Q.Queue, id: nat)
    requires Q.Inv(c, q) && Q.WorkConserving(c, q)
    ensures var q' := Expired(c, q, id);
            && Q.Inv(c, q') && Q.WorkConserving(c, q') && q'.held == q.held && q'.nextId == q.nextId
            && forall x :: x in q'.waiting ==> (x.id == id ==> x.cancelled) && (!x.cancelled ==> x in q.waiting)
  {
    Q.CancelKeepsInv(c, q, id);
    var q' := Expired(c, q, id);
    forall x | x in q'.waiting
      ensures (x.id == id ==> x.cancelled) && (!x.cancelled ==> x in q.waiting)
    {
      var m :| 0 <= m < |q.waiting| && Q.Cancel(q.waiting, id)[m] == x;
      assert q.waiting[m] in q.waiting;
      assert !x.cancelled ==> x == q.waiting[m];
    }
  }

  lemma DroppedIs(c: Q.Config, q: Q.Queue, id: nat)
    requires Q.Inv(c, q) && Q.WorkConserving(c, q)
    ensures var q' := Q.Step(c, q, Q.Drop(id));
            && Q.Inv(c, q') && Q.WorkConserving(c, q') && q'.held == q.held && q'.nextId == q.nextId
            && forall x :: x in q'.waiting ==> x in q.waiting
  {
    Q.DropKeepsInv(c, q, id);
  }

  lemma NothingChanges(w: L.World, i: nat)
    requires i < |w.reqs|
    ensures OnlyAt(w, i, w)
  {
    assert w.reqs[i := w.reqs[i]] == w.reqs;
  }

  lemma ExpireKeepsInv(c: Q.Config, j: Joint, i: nat)
    requires Inv(c, j) && CanMove(j, Expire(i))
    ensures Inv(c, Step(c, j, Expire(i)))
  {
    var q := QueueOf(j, j.w.reqs[i].worker);
    assert Good(c, j.w, j.ids, j.w.reqs[i].worker, q);
    ExpiredIs(c, q, j.ids[i]);
    NothingChanges(j.w, i);
    FewerKeepsInv(c, j, i, j.w, Expired(c, q, j.ids[i]));
  }

  lemma RejectedLeaves(w: L.World, i: nat, overflow: bool)
    requires L.Inv(w) && L.CanStep(w, i, L.QueueReject(overflow))
    ensures var w' := L.Step(w, i, L.QueueReject(overflow));
            && OnlyAt(w, i, w') && L.Inv(w') && w'.reqs[i].worker == w.reqs[i].worker
            && w'.reqs[i].ticket == L.Never && !w'.reqs[i].phase.Queued?
  {
    StepsOnly(w, i, L.QueueReject(overflow));
    assert L.LeaveQueue(w, i).reqs[i].ticket == L.Never;
  }

  lemma GiveUpKeepsInv(c: Q.Config, j: Joint, i: nat, overflow: bool)
    requires Inv(c, j) && CanMove(j, GiveUp(i, overflow))
    ensures Inv(c, Step(c, j, GiveUp(i, overflow)))
  {
    var q := QueueOf(j, j.w.reqs[i].worker);
    assert Good(c, j.w, j.ids, j.w.reqs[i].worker, q);
    DroppedIs(c, q, j.ids[i]);
    RejectedLeaves(j.w, i, overflow);
    FewerKeepsInv(c, j, i, L.Step(j.w, i, L.QueueReject(overflow)), Q.Step(c, q, Q.Drop(j.ids[i])));
  }

  lemma CancelledLeaves(w: L.World, i: nat)
    requires L.Inv(w) && L.CanStep(w, i, L.QueueCancel)
    ensures var w' := L.Step(w, i, L.QueueCancel);
            && OnlyAt(w, i, w') && L.Inv(w') && w'.reqs[i].worker == w.reqs[i].worker && !w'.reqs[i].phase.Queued?
            && w.reqs[i].ticket != L.Returned
            && w'.reqs[i].ticket == (if w.reqs[i].ticket == L.Held then L.Returned else L.Never)
  {
    StepsOnly(w, i, L.QueueCancel);
    assert L.Local(w.reqs[i]);
    assert L.TicketBack(w, i).reqs[i].ticket == if w.reqs[i].ticket == L.Held then L.Returned else L.Never;
    assert L.LeaveQueue(L.TicketBack(w, i), i).reqs[i].worker == w.reqs[i].worker;
  }

  lemma CancelKeepsInv(c: Q.Config, j: Joint, i: nat)
    requires Inv(c, j) && CanMove(j, Cancel(i))
    ensures Inv(c, Step(c, j, Cancel(i)))
  {
    var w, q := L.Step(j.w, i, L.QueueCancel), QueueOf(j, j.w.reqs[i].worker);
    CancelledLeaves(j.w, i);
    if j.w.reqs[i].ticket == L.Held {
      PassOnKeepsInv(c, j, i, w);
    } else {
      assert Good(c, j.w, j.ids, j.w.reqs[i].worker, q);
      ExpiredIs(c, q, j.ids[i]);
      DroppedIs(c, Expired(c, q, j.ids[i]), j.ids[i]);
      FewerKeepsInv(c, j, i, w, Q.Step(c, Expired(c, q, j.ids[i]), Q.Drop(j.ids[i])));
    }
  }

  // ---- Entering ----

  /** `q'` has taken request `i` in under the next identity, with a ticket or at the end of the queue. */
  predicate TakesIn(w': L.World, i: nat, k: string, q: Q.Queue, q': Q.Queue) {
    && q'.nextId == q.nextId + 1
    && (|| (Holds(w', k, i) && !Waits(w', k, i) && q'.held == q.held + {q.nextId} && q'.waiting == q.waiting)
        || (Waits(w', k, i) && q'.held == q.held && forall x :: x in q'.waiting ==> x in q.waiting || x.id == q.nextId))
  }

  lemma JoinsLinked(w: L.World, ids: seq<nat>, i: nat, w': L.World, k: string, q: Q.Queue, q': Q.Queue)
    requires |ids| == |w.reqs| && Linked(w, ids, k, q) && OnlyAt(w, i, w') && !Owns(w, k, i)
    requires forall t :: t in q.held ==> t < q.nextId
    requires forall x :: x in q.waiting ==> x.id < q.nextId
    requires TakesIn(w', i, k, q, q')
    ensures Linked(w', ids[i := q.nextId], k, q')
  {
    var ids' := ids[i := q.nextId];
    forall m | m != i
      ensures (Holds(w', k, m) <==> Holds(w, k, m)) && (Waits(w', k, m) <==> Waits(w, k, m))
    {
      assert 0 <= m < |w.reqs| ==> w'.reqs[m] == w.reqs[m];
    }
    forall t | t in q'.held
      ensures HeldBySome(w', ids', k, t)
    {
      if t in q.held {
        var m :| Holds(w, k, m) && ids[m] == t;
        assert Holds(w', k, m) && ids'[m] == t;
      } else {
        assert Holds(w', k, i) && ids'[i] == t;
      }
    }
    forall x | x in q'.waiting && !x.cancelled
      ensures AwaitedBySome(w', ids', k, x.id)
    {
      if x in q.waiting {
        assert AwaitedBySome(w, ids, k, x.id);
        var m :| Waits(w, k, m) && ids[m] == x.id;
        assert Waits(w', k, m) && ids'[m] == x.id;
      } else {
        assert Waits(w', k, i) && ids'[i] == x.id;
      }
    }
  }

  /** A request that owned nothing, and now belongs to worker `k`, changes no other worker. */
  lemma NewcomerKeepsPlaces(w: L.World, ids: seq<nat>, i: nat, w': L.World, id: nat, k: string, k': string)
    requires |ids| == |w.reqs| && OnlyAt(w, i, w') && k' != k && w'.reqs[i].worker == k
    requires w.reqs[i].ticket == L.Never && !w.reqs[i].phase.Queued?
    ensures SamePlaces(w, ids, w', ids[i := id], k')
  {
    forall m | 0 <= m < |w.reqs|
      ensures (Holds(w', k', m) <==> Holds(w, k', m)) && (Waits(w', k', m) <==> Waits(w, k', m))
    {
      assert m != i ==> w'.reqs[m] == w.reqs[m];
    }
  }

  /** A request that owns nothing before and after changes no worker. */
  lemma IdleKeepsPlaces(w: L.World, ids: seq<nat>, i: nat, w': L.World, k: string)
    requires |ids| == |w.reqs| && OnlyAt(w, i, w')
    requires w.reqs[i].ticket == L.Never && !w.reqs[i].phase.Queued? && w'.reqs[i].ticket == L.Never && !w'.reqs[i].phase.Queued?
    ensures SamePlaces(w, ids, w', ids, k)
  {
    forall m | 0 <= m < |w.reqs|
      ensures (Holds(w', k, m) <==> Holds(w, k, m)) && (Waits(w', k, m) <==> Waits(w, k, m))
    {
      assert m != i ==> w'.reqs[m] == w.reqs[m];
    }
  }

  lemma PlacedIs(w: L.World, i: nat, quota: bool, worker: string)
    requires L.Inv(w) && L.CanStep(w, i, L.Place(quota, worker))
    ensures var w' := L.Step(w, i, L.Place(quota, worker));
            && OnlyAt(w, i, w') && L.Inv(w') && Waits(w', worker, i)
            && w.reqs[i].ticket == L.Never && !w.reqs[i].phase.Queued?
  {
    StepsOnly(w, i, L.Place(quota, worker));
    assert L.Local(w.reqs[i]);
    assert L.TakeLease(w, i, quota).reqs[i].ticket == L.Never;
  }

  lemma OnlyAtTwice(w: L.World, i: nat, w1: L.World, w2: L.World)
    requires OnlyAt(w, i, w1) && OnlyAt(w1, i, w2)
    ensures OnlyAt(w, i, w2)
  {
  }

  lemma JoinIsGood(c: Q.Config, w: L.World, ids: seq<nat>, i: nat, w': L.World, k: string, q: Q.Queue, q': Q.Queue)
    requires |ids| == |w.reqs| && Good(c, w, ids, k, q) && OnlyAt(w, i, w') && Q.Inv(c, q') && Q.WorkConserving(c, q')
    requires w.reqs[i].ticket == L.Never && !w.reqs[i].phase.Queued? && TakesIn(w', i, k, q, q')
    ensures Good(c, w', ids[i := q.nextId], k, q')
  {
    assert Q.Fresh(q);
    JoinsLinked(w, ids, i, w', k, q, q');
  }

  lemma NewcomerIsGood(c: Q.Config, w: L.World, ids: seq<nat>, i: nat, w': L.World, id: nat, k: string, k': string, q: Q.Queue)
    requires |ids| == |w.reqs| && Good(c, w, ids, k', q) && OnlyAt(w, i, w') && k' != k && w'.reqs[i].worker == k
    requires w.reqs[i].ticket == L.Never && !w.reqs[i].phase.Queued?
    ensures Good(c, w', ids[i := id], k', q)
  {
    NewcomerKeepsPlaces(w, ids, i, w', id, k, k');
    LinkedSame(w, ids, w', ids[i := id], k', q);
  }

  /** The newcomer joins its worker. */
  lemma JoinKeepsInv(c: Q.Config, j: Joint, i: nat, w': L.World, k: string, q': Q.Queue)
    requires Inv(c, j) && OnlyAt(j.w, i, w') && L.Inv(w') && w'.reqs[i].worker == k
    requires j.w.reqs[i].ticket == L.Never && !j.w.reqs[i].phase.Queued?
    requires Q.Inv(c, q') && Q.WorkConserving(c, q') && TakesIn(w', i, k, QueueOf(j, k), q')
    ensures Inv(c, Joint(w', j.queues[k := q'], j.ids[i := QueueOf(j, k).nextId]))
  {
    var q := QueueOf(j, k);
    var j' := Joint(w', j.queues[k := q'], j.ids[i := q.nextId]);
    forall k'
      ensures Good(c, w', j'.ids, k', QueueOf(j', k'))
    {
      assert Good(c, j.w, j.ids, k', QueueOf(j, k'));
      if k' == k {
        JoinIsGood(c, j.w, j.ids, i, w', k, q, q');
      } else {
        NewcomerIsGood(c, j.w, j.ids, i, w', q.nextId, k, k', QueueOf(j, k'));
      }
    }
  }

  lemma FullIsGood(c: Q.Config, w: L.World, ids: seq<nat>, i: nat, w': L.World, k: string, q: Q.Queue, q': Q.Queue)
    requires |ids| == |w.reqs| && Good(c, w, ids, k, q) && OnlyAt(w, i, w')
    requires w.reqs[i].ticket == L.Never && !w.reqs[i].phase.Queued? && w'.reqs[i].ticket == L.Never && !w'.reqs[i].phase.Queued?
    requires Q.Inv(c, q') && Q.WorkConserving(c, q') && q' == q.(clock := q'.clock)
    ensures Good(c, w', ids, k, q')
  {
    IdleKeepsPlaces(w, ids, i, w', k);
    LinkedSame(w, ids, w', ids, k, q);
  }

  lemma FullKeepsInv(c: Q.Config, j: Joint, i: nat, w': L.World, k: string, q': Q.Queue)
    requires Inv(c, j) && OnlyAt(j.w, i, w') && L.Inv(w') && w'.reqs[i].ticket == L.Never && !w'.reqs[i].phase.Queued?
    requires j.w.reqs[i].ticket == L.Never && !j.w.reqs[i].phase.Queued?
    requires Q.Inv(c, q') && Q.WorkConserving(c, q') && q' == QueueOf(j, k).(clock := q'.clock)
    ensures Inv(c, Joint(w', j.queues[k := q'], j.ids))
  {
    var j' := Joint(w', j.queues[k := q'], j.ids);
    forall k'
      ensures Good(c, w', j.ids, k', QueueOf(j', k'))
    {
      var q := QueueOf(j, k');
      assert Good(c, j.w, j.ids, k', q);
      FullIsGood(c, j.w, j.ids, i, w', k', q, if k' == k then q' else q);
    }
  }

  /** What the queue answers, and what it has become. */
  lemma AdmitAnswers(c: Q.Config, q: Q.Queue, a: Q.Event, q': Q.Queue)
    requires a.Arrive? && q' == Q.Admit(c, q, a)
    ensures match Q.Answer(c, q)
            case Granted(id) => id == q.nextId && q'.nextId == id + 1 && q'.held == q.held + {id} && q'.waiting == q.waiting
            case QueueFull => q' == q.(clock := q'.clock)
            case Queued(id) => id == q.nextId && q'.nextId == id + 1 && q'.held == q.held
                               && forall x :: x in q'.waiting ==> x in q.waiting || x.id == id
  {
  }

  lemma GrantedKeepsInv(c: Q.Config, j: Joint, i: nat, placed: L.World, k: string, q': Q.Queue)
    requires Inv(c, j) && OnlyAt(j.w, i, placed) && L.Inv(placed) && Waits(placed, k, i)
    requires j.w.reqs[i].ticket == L.Never && !j.w.reqs[i].phase.Queued? && Q.Inv(c, q') && Q.WorkConserving(c, q')
    requires var q := QueueOf(j, k); q'.nextId == q.nextId + 1 && q'.held == q.held + {q.nextId} && q'.waiting == q.waiting
    ensures Inv(c, Joint(Try(placed, i, L.Grant), j.queues[k := q'], j.ids[i := QueueOf(j, k).nextId]))
  {
    var w' := Try(placed, i, L.Grant);
    GrantOne(placed, k, i);
    OnlyAtTwice(j.w, i, placed, w');
    JoinKeepsInv(c, j, i, w', k, q');
  }

  lemma RefusedKeepsInv(c: Q.Config, j: Joint, i: nat, placed: L.World, k: string, q': Q.Queue, overflow: bool)
    requires Inv(c, j) && OnlyAt(j.w, i, placed) && L.Inv(placed) && Waits(placed, k, i)
    requires j.w.reqs[i].ticket == L.Never && !j.w.reqs[i].phase.Queued? && Q.Inv(c, q') && Q.WorkConserving(c, q')
    requires q' == QueueOf(j, k).(clock := q'.clock)
    ensures Inv(c, Joint(Try(placed, i, L.QueueReject(overflow)), j.queues[k := q'], j.ids))
  {
    var w' := Try(placed, i, L.QueueReject(overflow));
    RejectedLeaves(placed, i, overflow);
    OnlyAtTwice(j.w, i, placed, w');
    FullKeepsInv(c, j, i, w', k, q');
  }

  lemma EnterKeepsInv(c: Q.Config, j: Joint, m: Move)
    requires Inv(c, j) && m.Enter? && CanMove(j, m)
    ensures Inv(c, Step(c, j, m))
  {
    var i, k := m.i, m.worker;
    var q := QueueOf(j, k);
    var placed, q' := L.Step(j.w, i, L.Place(m.quota, k)), Q.Admit(c, q, m.item);
    assert Good(c, j.w, j.ids, k, q);
    PlacedIs(j.w, i, m.quota, k);
    Q.AdmitKeepsInv(c, q, m.item);
    AdmitAnswers(c, q, m.item, q');
    match Q.Answer(c, q)
    case Granted(id) => GrantedKeepsInv(c, j, i, placed, k, q');
    case QueueFull => RefusedKeepsInv(c, j, i, placed, k, q', m.overflow);
    case Queued(id) => JoinKeepsInv(c, j, i, placed, k, q');
  }

  lemma ArriveKeepsInv(c: Q.Config, j: Joint, bucket: string, tokens: nat)
    requires Inv(c, j)
    ensures Inv(c, Step(c, j, Arrive(bucket, tokens)))
  {
    var e := L.Event.Arrive(bucket, tokens);
    var w', ids' := L.Step(j.w, 0, e), j.ids + [0];
    L.StepKeepsInv(j.w, 0, e, w');
    var j' := Joint(w', j.queues, ids');
    forall k
      ensures Good(c, w', ids', k, QueueOf(j', k))
    {
      assert Good(c, j.w, j.ids, k, QueueOf(j, k));
      LinkedSame(j.w, j.ids, w', ids', k, QueueOf(j, k));
    }
  }

  /** Every segment of every handler keeps requests and queues linked. */
  lemma StepKeepsInv(c: Q.Config, j: Joint, m: Move)
    requires Inv(c, j) && CanMove(j, m)
    ensures Inv(c, Step(c, j, m))
  {
    match m
    case Arrive(bucket, tokens) => ArriveKeepsInv(c, j, bucket, tokens);
    case Enter(_, _, _, _, _) => EnterKeepsInv(c, j, m);
    case Expire(i) => ExpireKeepsInv(c, j, i);
    case GiveUp(i, overflow) => GiveUpKeepsInv(c, j, i, overflow);
    case Cancel(i) => CancelKeepsInv(c, j, i);
    case Do(i, e) => DoKeepsInv(c, j, i, e);
  }

  lemma EmptyIsGood(c: Q.Config, k: string)
    ensures Good(c, L.Idle, [], k, Q.Empty)
  {
    assert Q.Patient(c, []) && Q.Slots(c, Q.Empty);
  }

  lemma Begins(c: Q.Config)
    ensures Inv(c, Start)
  {
    L.ExecKeepsInv([]);
    forall k
      ensures Good(c, Start.w, Start.ids, k, QueueOf(Start, k))
    {
      EmptyIsGood(c, k);
    }
  }

  /** Any moves; one that is not possible when its turn comes is skipped. */
  ghost function Exec(c: Q.Config, moves: seq<Move>): (j: Joint)
    ensures Inv(c, j)
  {
    if moves == [] then
      Begins(c);
      Start
    else
      var j, m := Exec(c, moves[..|moves| - 1]), moves[|moves| - 1];
      if CanMove(j, m) then
        StepKeepsInv(c, j, m);
        Step(c, j, m)
      else j
  }

  // ---- Main results ----

  ghost function HeldIds(w: L.World, ids: seq<nat>, k: string, n: nat): set<nat>
    requires n <= |ids| == |w.reqs|
  {
    set i | 0 <= i < n && Holds(w, k, i) :: ids[i]
  }

  lemma OneMoreHeld(w: L.World, ids: seq<nat>, k: string, n: nat)
    requires 0 < n <= |ids| == |w.reqs|
    requires forall i, m :: Holds(w, k, i) && Holds(w, k, m) && i != m ==> ids[i] != ids[m]
    ensures |HeldIds(w, ids, k, n)| == |HeldIds(w, ids, k, n - 1)| + (if Holds(w, k, n - 1) then 1 else 0)
  {
    if Holds(w, k, n - 1) {
      assert HeldIds(w, ids, k, n) == HeldIds(w, ids, k, n - 1) + {ids[n - 1]};
      assert ids[n - 1] !in HeldIds(w, ids, k, n - 1);
    } else {
      assert HeldIds(w, ids, k, n) == HeldIds(w, ids, k, n - 1);
    }
  }

  lemma {:induction false} HeldIdsCount(w: L.World, ids: seq<nat>, k: string, n: nat)
    requires n <= |ids| == |w.reqs|
    requires forall i, m :: Holds(w, k, i) && Holds(w, k, m) && i != m ==> ids[i] != ids[m]
    ensures |HeldIds(w, ids, k, n)| == Weigh(w.reqs[..n], L.OfSlots(k))
  {
    if n == 0 {
      assert HeldIds(w, ids, k, 0) == {};
    } else {
      HeldIdsCount(w, ids, k, n - 1);
      OneMoreHeld(w, ids, k, n);
      assert w.reqs[..n] == w.reqs[..n - 1] + [w.reqs[n - 1]];
      WeighAppend(w.reqs[..n - 1], w.reqs[n - 1], L.OfSlots(k));
    }
  }

  /**
   * The handler is bound by its queues: in every interleaving, the slots that requests hold of a worker are the in-flight
   * count of its queue, at most max_inflight; and when somebody is queued there, all of them are held.
   */
  lemma HandlerIsBounded(c: Q.Config, moves: seq<Move>, k: string)
    ensures var j := Exec(c, moves); var q := QueueOf(j, k);
            && Get(j.w.slots, k, 0) == Weigh(j.w.reqs, L.OfSlots(k)) == q.inflight == |q.held| <= Max(0, c.maxInflight)
            && (q.waiting != [] ==> Get(j.w.slots, k, 0) >= c.maxInflight)
  {
    var j := Exec(c, moves);
    var q := QueueOf(j, k);
    assert Good(c, j.w, j.ids, k, q);
    assert L.BalancedFor(j.w, k);
    HeldIdsCount(j.w, j.ids, k, |j.ids|);
    assert j.w.reqs[..|j.ids|] == j.w.reqs;
    HeldAreHolders(j.w, j.ids, k, q);
  }

  lemma HeldAreHolders(w: L.World, ids: seq<nat>, k: string, q: Q.Queue)
    requires |ids| == |w.reqs| && Linked(w, ids, k, q)
    ensures q.held == HeldIds(w, ids, k, |ids|)
  {
    forall t | t in q.held
      ensures t in HeldIds(w, ids, k, |ids|)
    {
      assert HeldBySome(w, ids, k, t);
    }
  }

  /** No ticket is lost or handed out twice: what the queue counts as held is held by exactly one request. */
  lemma TicketsHaveOneHolder(c: Q.Config, moves: seq<Move>, k: string, t: nat)
    requires t in QueueOf(Exec(c, moves), k).held
    ensures var j := Exec(c, moves);
            exists i :: Holds(j.w, k, i) && j.ids[i] == t && forall m :: Holds(j.w, k, m) && j.ids[m] == t ==> m == i
  {
    var j := Exec(c, moves);
    assert Good(c, j.w, j.ids, k, QueueOf(j, k));
    OneHolder(j.w, j.ids, k, QueueOf(j, k), t);
  }

  lemma OneHolder(w: L.World, ids: seq<nat>, k: string, q: Q.Queue, t: nat)
    requires |ids| == |w.reqs| && Linked(w, ids, k, q) && t in q.held
    ensures exists i :: Holds(w, k, i) && ids[i] == t && forall m :: Holds(w, k, m) && ids[m] == t ==> m == i
  {
    assert HeldBySome(w, ids, k, t);
    var i :| Holds(w, k, i) && ids[i] == t;
    assert forall m :: Holds(w, k, m) && ids[m] == t ==> Owns(w, k, m) && m == i;
  }

  lemma DoneHoldsNothing(r: L.Req)
    requires L.Local(r) && r.phase.Done?
    ensures r.ticket != L.Held
  {
  }

  /** When every request is done, every queue has all its slots back. */
  lemma AllDoneAllFree(c: Q.Config, moves: seq<Move>, k: string)
    requires forall i :: 0 <= i < |Exec(c, moves).w.reqs| ==> Exec(c, moves).w.reqs[i].phase.Done?
    ensures QueueOf(Exec(c, moves), k).inflight == 0
  {
    var reqs := Exec(c, moves).w.reqs;
    HandlerIsBounded(c, moves, k);
    forall i | 0 <= i < |reqs|
      ensures reqs[i].ticket != L.Held
    {
      DoneHoldsNothing(reqs[i]);
    }
    WeighZero(reqs, L.OfSlots(k));
  }
}
