/**
 * Resource accounting of `serve_completion` in services/gateway/main.py.
 *
 * Each request holds a tenant lease, a place in the `pending` count, a dispatch ticket and a share of
 * its worker's counters. Await-free segments of the handler are the steps of a transition system
 * over any number of requests; every interleaving gives everything back exactly once.
 */
module Lifecycle {
  import opened Basics
  import Queueing
  import Tenants
  import Workers

  /** What the handler does when the overflow destination does not take the request. */
  datatype Fallback = RejectLocally | FinishWith(status: int)

  datatype Phase =
    | Fresh                             // not past its first await
    | Overflowing(fallback: Fallback)   // waiting for the overflow destination
    | OverflowBody                      // the overflow destination is streaming
    | Queued                            // waiting for a dispatch slot
    | Answered                          // the queue has answered; the same step goes on
    | Proxying(stream: bool)            // waiting for the worker
    | Closing(status: int)              // the worker failed; its connection is being closed
    | Body                              // the worker is streaming
    | Done(cancelled: bool)

  datatype Hold = Never | Held | Returned

  datatype Req = Req(
    phase: Phase,
    bucket: string,
    tokens: nat,
    worker: string,
    lease: Hold,
    refunded: bool,
    ticket: Hold,
    token: nat,        // dispatch token, unique per worker
    dispatched: bool,
    freed: bool,
    finished: bool,
    overflowed: bool,  // the `done` flag of an overflow that succeeded
    status: int,       // final status given to `finish`
    answers: nat)      // times the request counter was bumped

  function NewReq(bucket: string, tokens: nat): Req {
    Req(Fresh, bucket, tokens, "", Never, false, Never, 0, false, false, false, false, 0, 0)
  }

  /** Shared counters, by worker and by tenant bucket. */
  datatype World = World(
    reqs: seq<Req>,
    pending: map<string, int>,
    inflight: map<string, int>,
    tokens: map<string, int>,
    recent: map<string, set<nat>>,
    issued: map<string, nat>,
    slots: map<string, int>,
    active: map<string, int>)

  const Idle: World := World([], map[], map[], map[], map[], map[], map[], map[])

  function Add(m: map<string, int>, k: string, d: int): map<string, int> {
    m[k := Get(m, k, 0) + d]
  }

  // ---- The closures: what they do to the request itself ----

  function LeaseBack(r: Req, refund: bool): Req {
    if r.lease == Held then r.(lease := Returned, refunded := refund) else r
  }

  function Freed(r: Req): Req {
    if r.freed then r else r.(freed := true, ticket := if r.ticket == Held then Returned else r.ticket)
  }

  function Finished(r: Req, status: int): Req {
    if r.finished then r
    else LeaseBack(r.(finished := true, status := status, answers := r.answers + 1), status >= 500)
  }

  function Rejected(r: Req): Req {
    LeaseBack(r, true).(answers := r.answers + 1)
  }

  function Settled(r: Req): Req {
    if r.overflowed then r else LeaseBack(r.(overflowed := true, answers := r.answers + 1), false)
  }

  // ---- and to the shared counters ----

  /** A hold that is given back lowers its counter. */
  function ReturnedFrom(m: map<string, int>, k: string, was: Hold, now: Hold): map<string, int> {
    if was == Held && now == Returned then Add(m, k, -1) else m
  }

  /** Request `i` becomes `r`, and its lease and ticket counters follow. */
  function Put(w: World, i: nat, r: Req): (w': World)
    requires i < |w.reqs|
    ensures w'.recent == w.recent && w'.issued == w.issued
    ensures |w'.reqs| == |w.reqs| && w'.reqs[i] == r
  {
    var q := w.reqs[i];
    World(w.reqs[i := r], w.pending, w.inflight, w.tokens, w.recent, w.issued,
          ReturnedFrom(w.slots, q.worker, q.ticket, r.ticket),
          ReturnedFrom(w.active, q.bucket, q.lease, r.lease))
  }

  function FreeWorker(w: World, i: nat): (w': World)
    requires i < |w.reqs|
    ensures |w'.reqs| == |w.reqs| && w'.reqs[i] == Freed(w.reqs[i])
  {
    var r := w.reqs[i];
    if r.freed then w
    else Put(w, i, Freed(r)).(
      inflight := Add(w.inflight, r.worker, -1),
      tokens := Add(w.tokens, r.worker, 0 - r.tokens),
      recent := w.recent[r.worker := Get(w.recent, r.worker, {}) - {r.token}])
  }

  function Finish(w: World, i: nat, status: int): (w': World)
    requires i < |w.reqs|
    ensures w'.recent == w.recent && w'.issued == w.issued
    ensures |w'.reqs| == |w.reqs| && w'.reqs[i] == Finished(w.reqs[i], status)
  {
    Put(w, i, Finished(w.reqs[i], status))
  }

  function Reject(w: World, i: nat): (w': World)
    requires i < |w.reqs|
    ensures w'.recent == w.recent && w'.issued == w.issued
    ensures |w'.reqs| == |w.reqs| && w'.reqs[i] == Rejected(w.reqs[i])
  {
    Put(w, i, Rejected(w.reqs[i]))
  }

  function Once(w: World, i: nat): (w': World)
    requires i < |w.reqs|
    ensures w'.recent == w.recent && w'.issued == w.issued
    ensures |w'.reqs| == |w.reqs| && w'.reqs[i] == Settled(w.reqs[i])
  {
    Put(w, i, Settled(w.reqs[i]))
  }

  function Goto(w: World, i: nat, p: Phase): (w': World)
    requires i < |w.reqs|
    ensures w'.recent == w.recent && w'.issued == w.issued
    ensures |w'.reqs| == |w.reqs| && w'.reqs[i] == w.reqs[i].(phase := p)
  {
    w.(reqs := w.reqs[i := w.reqs[i].(phase := p)])
  }

  function TakeLease(w: World, i: nat, quota: bool): (w': World)
    requires i < |w.reqs|
    ensures w'.recent == w.recent && w'.issued == w.issued
    ensures |w'.reqs| == |w.reqs| && w'.reqs[i] == (if quota then w.reqs[i].(lease := Held) else w.reqs[i])
  {
    if !quota then w
    else w.(reqs := w.reqs[i := w.reqs[i].(lease := Held)], active := Add(w.active, w.reqs[i].bucket, 1))
  }

  function EnterQueue(w: World, i: nat, worker: string): (w': World)
    requires i < |w.reqs|
    ensures w'.recent == w.recent && w'.issued == w.issued
    ensures |w'.reqs| == |w.reqs| && w'.reqs[i] == w.reqs[i].(phase := Queued, worker := worker)
  {
    w.(reqs := w.reqs[i := w.reqs[i].(phase := Queued, worker := worker)], pending := Add(w.pending, worker, 1))
  }

  function LeaveQueue(w: World, i: nat): (w': World)
    requires i < |w.reqs|
    ensures w'.recent == w.recent && w'.issued == w.issued
    ensures |w'.reqs| == |w.reqs| && w'.reqs[i] == w.reqs[i].(phase := Answered)
  {
    Goto(w, i, Answered).(pending := Add(w.pending, w.reqs[i].worker, -1))
  }

  function TicketBack(w: World, i: nat): (w': World)
    requires i < |w.reqs|
    ensures w'.recent == w.recent && w'.issued == w.issued
    ensures |w'.reqs| == |w.reqs| && w'.reqs[i] == w.reqs[i].(ticket := if w.reqs[i].ticket == Held then Returned else w.reqs[i].ticket)
  {
    var r := w.reqs[i];
    Put(w, i, r.(ticket := if r.ticket == Held then Returned else r.ticket))
  }

  function LeaseBackAndStop(w: World, i: nat): (w': World)
    requires i < |w.reqs|
    ensures w'.recent == w.recent && w'.issued == w.issued
    ensures |w'.reqs| == |w.reqs| && w'.reqs[i] == LeaseBack(w.reqs[i], true).(phase := Done(true))
  {
    Goto(Put(w, i, LeaseBack(w.reqs[i], true)), i, Done(true))
  }

  /** The worker is taken: its counters go up together. */
  function Dispatch(w: World, i: nat, stream: bool): (w': World)
    requires i < |w.reqs|
    ensures |w'.reqs| == |w.reqs|
  {
    var r := w.reqs[i];
    var t := Get(w.issued, r.worker, 0) + 1;
    w.(reqs := w.reqs[i := r.(phase := Proxying(stream), dispatched := true, token := t)],
       inflight := Add(w.inflight, r.worker, 1),
       tokens := Add(w.tokens, r.worker, r.tokens),
       issued := w.issued[r.worker := t],
       recent := w.recent[r.worker := Get(w.recent, r.worker, {}) + {t}])
  }

  // ---- Steps ----

  datatype Event =
    | Arrive(bucket: string, tokens: nat)
    | Refuse                                      // guard or tenant quota: nothing was taken
    | Shed(quota: bool, overflow: bool)           // after the lease: admission or placement says no
    | Place(quota: bool, worker: string)          // placed, now waiting for a slot
    | Grant                                       // the queue hands out a ticket
    | Resume(stream: bool)                        // the handler picks its ticket up and dispatches
    | QueueReject(overflow: bool)                 // full or timed out
    | QueueCancel                                 // the client went away while queued
    | WorkerAnswers(status: int, overflow: bool)  // answer or connection error, not streaming
    | OpenFails(status: int)                      // streaming: connection error or status other than 200
    | Closed(overflow: bool)                      // streaming: the failed connection is closed
    | Open                                        // streaming: the worker starts to answer
    | BodyEnds(status: int)                       // end, upstream error or disconnect while streaming
    | Cleanup                                     // background task after the response
    | OverflowFails
    | OverflowAnswers
    | OverflowOpens

  predicate OverflowStatus(status: int) {
    status == 503 || status == 529
  }

  predicate CanStep(w: World, i: nat, e: Event) {
    if e.Arrive? then true
    else
      i < |w.reqs| &&
      var r := w.reqs[i];
      match e
      case Arrive(_, _) => true
      case Refuse => r.phase.Fresh?
      case Shed(_, _) => r.phase.Fresh?
      case Place(_, _) => r.phase.Fresh?
      case Grant => r.phase.Queued? && r.ticket == Never
      case Resume(_) => r.phase.Queued? && r.ticket == Held
      case QueueReject(_) => r.phase.Queued? && r.ticket == Never
      case QueueCancel => r.phase.Queued?
      case WorkerAnswers(status, overflow) => r.phase == Proxying(false) && (overflow ==> OverflowStatus(status))
      case OpenFails(status) => r.phase == Proxying(true)
      case Closed(overflow) => r.phase.Closing? && (overflow ==> OverflowStatus(r.phase.status))
      case Open => r.phase == Proxying(true)
      case BodyEnds(_) => r.phase.Body? || r.phase.OverflowBody?
      case Cleanup => r.phase.Body? || r.phase.OverflowBody? || (r.phase.Done? && (r.finished || r.overflowed))
      case OverflowFails => r.phase.Overflowing?
      case OverflowAnswers => r.phase.Overflowing?
      case OverflowOpens => r.phase.Overflowing?
  }

  function RejectOr(w: World, i: nat, overflow: bool): (w': World)
    requires i < |w.reqs|
    ensures w'.recent == w.recent && w'.issued == w.issued
    ensures |w'.reqs| == |w.reqs| && w'.reqs[i] == (if overflow then w.reqs[i].(phase := Overflowing(RejectLocally)) else Rejected(w.reqs[i]).(phase := Done(false)))
  {
    if overflow then Goto(w, i, Overflowing(RejectLocally)) else Goto(Reject(w, i), i, Done(false))
  }

  function FinishOr(w: World, i: nat, status: int, overflow: bool): (w': World)
    requires i < |w.reqs|
    ensures w'.recent == w.recent && w'.issued == w.issued
    ensures |w'.reqs| == |w.reqs| && w'.reqs[i] == (if overflow then w.reqs[i].(phase := Overflowing(FinishWith(status)))
                                               else Finished(w.reqs[i], status).(phase := Done(false)))
  {
    if overflow then Goto(w, i, Overflowing(FinishWith(status))) else Goto(Finish(w, i, status), i, Done(false))
  }

  function Step(w: World, i: nat, e: Event): (w': World)
    requires CanStep(w, i, e)
  {
    match e
    case Arrive(bucket, tokens) => w.(reqs := w.reqs + [NewReq(bucket, tokens)])
    case Refuse => Goto(Reject(w, i), i, Done(false))
    case Shed(quota, overflow) => RejectOr(TakeLease(w, i, quota), i, overflow)
    case Place(quota, worker) => EnterQueue(TakeLease(w, i, quota), i, worker)
    case Grant =>
      w.(reqs := w.reqs[i := w.reqs[i].(ticket := Held)], slots := Add(w.slots, w.reqs[i].worker, 1))
    case Resume(stream) => Dispatch(LeaveQueue(w, i), i, stream)
    case QueueReject(overflow) => RejectOr(LeaveQueue(w, i), i, overflow)
    case QueueCancel => LeaseBackAndStop(LeaveQueue(TicketBack(w, i), i), i)
    case WorkerAnswers(status, overflow) => FinishOr(FreeWorker(w, i), i, status, overflow)
    case OpenFails(status) => Goto(FreeWorker(w, i), i, Closing(status))
    case Closed(overflow) => FinishOr(w, i, w.reqs[i].phase.status, overflow)
    case Open => Goto(w, i, Body)
    case BodyEnds(status) =>
      if w.reqs[i].phase.Body? then Goto(Finish(FreeWorker(w, i), i, status), i, Done(false))
      else Goto(Once(w, i), i, Done(false))
    case Cleanup =>
      if w.reqs[i].phase.Body? || (w.reqs[i].phase.Done? && w.reqs[i].finished)
      then Goto(Finish(FreeWorker(w, i), i, 499), i, Done(false))
      else Goto(Once(w, i), i, Done(false))
    case OverflowFails =>
      if w.reqs[i].phase.fallback.RejectLocally? then Goto(Reject(w, i), i, Done(false))
      else Goto(Finish(w, i, w.reqs[i].phase.fallback.status), i, Done(false))
    case OverflowAnswers => Goto(Once(w, i), i, Done(false))
    case OverflowOpens => Goto(w, i, OverflowBody)
  }

  // ---- What every step keeps ----

  /** One request's flags fit its phase. */
  predicate Local(r: Req) {
    && (r.dispatched ==> (r.freed <==> r.ticket == Returned) && (!r.freed <==> r.ticket == Held))
    && (!r.dispatched ==> !r.freed && !r.finished)
    && (r.lease == Held || r.lease == Never ==> !r.refunded)
    && match r.phase
       case Fresh => r.lease == Never && r.ticket == Never && !r.dispatched && !r.overflowed && r.answers == 0
       case Answered => true
       case Queued => r.lease != Returned && r.ticket != Returned && !r.dispatched && !r.overflowed && r.answers == 0
       case Overflowing(f) =>
         && r.lease != Returned && !r.finished && !r.overflowed && r.answers == 0
         && (if r.dispatched then r.freed && f.FinishWith? else r.ticket == Never && f.RejectLocally?)
       case OverflowBody =>
         && r.lease != Returned && !r.finished && !r.overflowed && r.answers == 0
         && (if r.dispatched then r.freed else r.ticket == Never)
       case Proxying(_) => r.lease != Returned && r.dispatched && !r.freed && !r.finished && !r.overflowed && r.answers == 0
       case Closing(_) => r.lease != Returned && r.dispatched && r.freed && !r.finished && !r.overflowed && r.answers == 0
       case Body => r.lease != Returned && r.dispatched && !r.freed && !r.finished && !r.overflowed && r.answers == 0
       case Done(cancelled) =>
         && r.lease != Held && r.ticket != Held && (r.dispatched ==> r.freed)
         && r.answers == (if cancelled then 0 else 1) && (cancelled ==> !r.finished && !r.overflowed)
         && !(r.finished && r.overflowed)
         && (r.dispatched ==> r.finished || r.overflowed)
         && (r.lease == Returned ==>
               (r.refunded <==> !r.overflowed && (!r.dispatched || r.status >= 500)))
  }

  predicate InFlight(k: string, r: Req) {
    r.dispatched && !r.freed && r.worker == k
  }

  function OfPending(k: string): Req -> int {
    (r: Req) => if r.phase.Queued? && r.worker == k then 1 else 0
  }

  function OfInflight(k: string): Req -> int {
    (r: Req) => if InFlight(k, r) then 1 else 0
  }

  function OfTokens(k: string): Req -> int {
    (r: Req) => if InFlight(k, r) then r.tokens else 0
  }

  function OfSlots(k: string): Req -> int {
    (r: Req) => if r.ticket == Held && r.worker == k then 1 else 0
  }

  function OfActive(k: string): Req -> int {
    (r: Req) => if r.lease == Held && r.bucket == k then 1 else 0
  }

  predicate BalancedFor(w: World, k: string) {
    && Get(w.pending, k, 0) == Weigh(w.reqs, OfPending(k)) && Get(w.inflight, k, 0) == Weigh(w.reqs, OfInflight(k))
    && Get(w.tokens, k, 0) == Weigh(w.reqs, OfTokens(k)) && Get(w.slots, k, 0) == Weigh(w.reqs, OfSlots(k))
    && Get(w.active, k, 0) == Weigh(w.reqs, OfActive(k))
  }

  /** Every counter is the sum over the requests that hold a share of it. */
  ghost predicate Balanced(w: World) {
    forall k :: BalancedFor(w, k)
  }

  /** The dispatch tokens of a worker are those of its requests in flight, all different. */
  ghost predicate Tracked(w: World) {
    && (forall k, t :: t in Get(w.recent, k, {}) ==>
          t <= Get(w.issued, k, 0) && exists i :: 0 <= i < |w.reqs| && InFlight(k, w.reqs[i]) && w.reqs[i].token == t)
    && (forall k, i :: 0 <= i < |w.reqs| && InFlight(k, w.reqs[i]) ==> w.reqs[i].token in Get(w.recent, k, {}))
    && (forall k, i, j :: 0 <= i < j < |w.reqs| && InFlight(k, w.reqs[i]) && InFlight(k, w.reqs[j]) ==>
          w.reqs[i].token != w.reqs[j].token)
  }

  ghost predicate Inv(w: World) {
    Balanced(w) && Tracked(w) && forall i :: 0 <= i < |w.reqs| ==> Local(w.reqs[i])
  }

  // ---- Every step is fair: a counter moves by exactly what the request's share of it does ----

  predicate Moves(m: map<string, int>, m': map<string, int>, k: string, f: Req -> int, r: Req, r': Req) {
    Get(m', k, 0) - Get(m, k, 0) == f(r') - f(r)
  }

  ghost predicate FairFor(w: World, i: nat, w': World, k: string)
    requires i < |w.reqs| && i < |w'.reqs|
  {
    && Moves(w.pending, w'.pending, k, OfPending(k), w.reqs[i], w'.reqs[i])
    && Moves(w.inflight, w'.inflight, k, OfInflight(k), w.reqs[i], w'.reqs[i])
    && Moves(w.tokens, w'.tokens, k, OfTokens(k), w.reqs[i], w'.reqs[i])
    && Moves(w.slots, w'.slots, k, OfSlots(k), w.reqs[i], w'.reqs[i])
    && Moves(w.active, w'.active, k, OfActive(k), w.reqs[i], w'.reqs[i])
  }

  ghost predicate Fair(w: World, i: nat, w': World)
    requires i < |w.reqs|
  {
    && |w'.reqs| == |w.reqs| && w'.reqs == w.reqs[i := w'.reqs[i]]
    && forall k :: FairFor(w, i, w', k)
  }

  lemma FairTwice(w: World, i: nat, w1: World, w2: World)
    requires i < |w.reqs| && Fair(w, i, w1) && Fair(w1, i, w2)
    ensures Fair(w, i, w2)
  {
    forall k
      ensures FairFor(w, i, w2, k)
    {
      assert FairFor(w, i, w1, k) && FairFor(w1, i, w2, k);
    }
  }

  /** The lease and ticket of a request may be handed back, or stay; nothing else about its shares changes. */
  predicate HandsBack(q: Req, r: Req) {
    && r.bucket == q.bucket && r.worker == q.worker && r.tokens == q.tokens
    && (r.phase.Queued? <==> q.phase.Queued?) && r.dispatched == q.dispatched
    && (r.lease == q.lease || (q.lease == Held && r.lease == Returned))
    && (r.ticket == q.ticket || (q.ticket == Held && r.ticket == Returned))
  }

  lemma HandsBackMoves(k: string, slots: map<string, int>, active: map<string, int>, q: Req, r: Req)
    requires HandsBack(q, r)
    ensures Moves(slots, ReturnedFrom(slots, q.worker, q.ticket, r.ticket), k, OfSlots(k), q, r)
    ensures Moves(active, ReturnedFrom(active, q.bucket, q.lease, r.lease), k, OfActive(k), q, r)
  {
  }

  lemma PutIsFair(w: World, i: nat, r: Req)
    requires i < |w.reqs| && HandsBack(w.reqs[i], r) && r.freed == w.reqs[i].freed
    ensures Fair(w, i, Put(w, i, r))
  {
    var w' := Put(w, i, r);
    forall k
      ensures FairFor(w, i, w', k)
    {
      HandsBackMoves(k, w.slots, w.active, w.reqs[i], r);
    }
  }

  lemma FreeIsFair(w: World, i: nat)
    requires i < |w.reqs| && (w.reqs[i].freed || w.reqs[i].dispatched)
    ensures Fair(w, i, FreeWorker(w, i))
  {
    var w' := FreeWorker(w, i);
    if w.reqs[i].freed {
      assert w.reqs[i := w.reqs[i]] == w.reqs;
    } else {
      forall k
        ensures FairFor(w, i, w', k)
      {
        assert Freed(w.reqs[i]).worker == w.reqs[i].worker;
      }
    }
  }

  lemma GotoIsFair(w: World, i: nat, p: Phase)
    requires i < |w.reqs| && !w.reqs[i].phase.Queued? && !p.Queued?
    ensures Fair(w, i, Goto(w, i, p))
  {
  }

  lemma TakeLeaseIsFair(w: World, i: nat, quota: bool)
    requires i < |w.reqs| && w.reqs[i].lease == Never
    ensures Fair(w, i, TakeLease(w, i, quota))
  {
    var w' := TakeLease(w, i, quota);
    if !quota {
      assert w.reqs[i := w.reqs[i]] == w.reqs;
    } else {
      forall k
        ensures FairFor(w, i, w', k)
      {
        assert Moves(w.active, w'.active, k, OfActive(k), w.reqs[i], w'.reqs[i]);
      }
    }
  }

  lemma EnterQueueIsFair(w: World, i: nat, worker: string)
    requires i < |w.reqs| && w.reqs[i].phase.Fresh? && w.reqs[i].ticket == Never && !w.reqs[i].dispatched
    ensures Fair(w, i, EnterQueue(w, i, worker))
  {
  }

  lemma LeaveQueueIsFair(w: World, i: nat)
    requires i < |w.reqs| && w.reqs[i].phase.Queued?
    ensures Fair(w, i, LeaveQueue(w, i))
  {
  }

  lemma DispatchIsFair(w: World, i: nat, stream: bool)
    requires i < |w.reqs| && w.reqs[i].phase.Answered? && !w.reqs[i].dispatched && !w.reqs[i].freed
    ensures Fair(w, i, Dispatch(w, i, stream))
  {
  }

  lemma RejectIsFair(w: World, i: nat, overflow: bool)
    requires i < |w.reqs| && !w.reqs[i].phase.Queued?
    ensures Fair(w, i, RejectOr(w, i, overflow))
  {
    if overflow {
      GotoIsFair(w, i, Overflowing(RejectLocally));
    } else {
      PutIsFair(w, i, Rejected(w.reqs[i]));
      GotoIsFair(Reject(w, i), i, Done(false));
      FairTwice(w, i, Reject(w, i), RejectOr(w, i, overflow));
    }
  }

  lemma FinishIsFair(w: World, i: nat, status: int, overflow: bool)
    requires i < |w.reqs| && !w.reqs[i].phase.Queued?
    ensures Fair(w, i, FinishOr(w, i, status, overflow))
  {
    if overflow {
      GotoIsFair(w, i, Overflowing(FinishWith(status)));
    } else {
      PutIsFair(w, i, Finished(w.reqs[i], status));
      GotoIsFair(Finish(w, i, status), i, Done(false));
      FairTwice(w, i, Finish(w, i, status), FinishOr(w, i, status, overflow));
    }
  }

  lemma OnceIsFair(w: World, i: nat)
    requires i < |w.reqs| && !w.reqs[i].phase.Queued?
    ensures Fair(w, i, Goto(Once(w, i), i, Done(false)))
  {
    PutIsFair(w, i, Settled(w.reqs[i]));
    GotoIsFair(Once(w, i), i, Done(false));
    FairTwice(w, i, Once(w, i), Goto(Once(w, i), i, Done(false)));
  }

  lemma FreeThenFinishIsFair(w: World, i: nat, status: int, overflow: bool)
    requires i < |w.reqs| && !w.reqs[i].phase.Queued? && (w.reqs[i].freed || w.reqs[i].dispatched)
    ensures Fair(w, i, FinishOr(FreeWorker(w, i), i, status, overflow))
  {
    var w1 := FreeWorker(w, i);
    FreeIsFair(w, i);
    assert !w1.reqs[i].phase.Queued?;
    FinishIsFair(w1, i, status, overflow);
    FairTwice(w, i, w1, FinishOr(w1, i, status, overflow));
  }

  lemma LeaseBackIsFair(w: World, i: nat)
    requires i < |w.reqs| && !w.reqs[i].phase.Queued?
    ensures Fair(w, i, LeaseBackAndStop(w, i))
  {
    var w1 := Put(w, i, LeaseBack(w.reqs[i], true));
    PutIsFair(w, i, LeaseBack(w.reqs[i], true));
    GotoIsFair(w1, i, Done(true));
    FairTwice(w, i, w1, Goto(w1, i, Done(true)));
  }

  lemma CancelIsFair(w: World, i: nat)
    requires i < |w.reqs| && w.reqs[i].phase.Queued?
    ensures Fair(w, i, LeaseBackAndStop(LeaveQueue(TicketBack(w, i), i), i))
  {
    var r := w.reqs[i];
    var w1 := TicketBack(w, i);
    PutIsFair(w, i, r.(ticket := if r.ticket == Held then Returned else r.ticket));
    assert w1.reqs[i].phase.Queued?;
    var w2 := LeaveQueue(w1, i);
    LeaveQueueIsFair(w1, i);
    assert w2.reqs[i].phase.Answered?;
    FairTwice(w, i, w1, w2);
    LeaseBackIsFair(w2, i);
    FairTwice(w, i, w2, LeaseBackAndStop(w2, i));
  }

  predicate BeforeDispatch(e: Event) {
    e.Refuse? || e.Shed? || e.Place? || e.Grant? || e.Resume? || e.QueueReject? || e.QueueCancel?
  }

  lemma ShedIsFair(w: World, i: nat, quota: bool, overflow: bool)
    requires CanStep(w, i, Shed(quota, overflow)) && Local(w.reqs[i])
    ensures Fair(w, i, Step(w, i, Shed(quota, overflow)))
  {
    var w1 := TakeLease(w, i, quota);
    TakeLeaseIsFair(w, i, quota);
    RejectIsFair(w1, i, overflow);
    FairTwice(w, i, w1, RejectOr(w1, i, overflow));
  }

  lemma PlaceIsFair(w: World, i: nat, quota: bool, worker: string)
    requires CanStep(w, i, Place(quota, worker)) && Local(w.reqs[i])
    ensures Fair(w, i, Step(w, i, Place(quota, worker)))
  {
    var w1 := TakeLease(w, i, quota);
    TakeLeaseIsFair(w, i, quota);
    EnterQueueIsFair(w1, i, worker);
    FairTwice(w, i, w1, EnterQueue(w1, i, worker));
  }

  lemma GrantIsFair(w: World, i: nat)
    requires CanStep(w, i, Grant) && Local(w.reqs[i])
    ensures Fair(w, i, Step(w, i, Grant))
  {
    assert forall k :: FairFor(w, i, Step(w, i, Grant), k);
  }

  lemma ResumeIsFair(w: World, i: nat, stream: bool)
    requires CanStep(w, i, Resume(stream)) && Local(w.reqs[i])
    ensures Fair(w, i, Step(w, i, Resume(stream)))
  {
    var w1 := LeaveQueue(w, i);
    LeaveQueueIsFair(w, i);
    DispatchIsFair(w1, i, stream);
    FairTwice(w, i, w1, Dispatch(w1, i, stream));
  }

  lemma QueueRejectIsFair(w: World, i: nat, overflow: bool)
    requires CanStep(w, i, QueueReject(overflow)) && Local(w.reqs[i])
    ensures Fair(w, i, Step(w, i, QueueReject(overflow)))
  {
    var w1 := LeaveQueue(w, i);
    LeaveQueueIsFair(w, i);
    RejectIsFair(w1, i, overflow);
    FairTwice(w, i, w1, RejectOr(w1, i, overflow));
  }

  lemma EarlyStepIsFair(w: World, i: nat, e: Event, w': World)
    requires CanStep(w, i, e) && BeforeDispatch(e) && Local(w.reqs[i]) && w' == Step(w, i, e)
    ensures Fair(w, i, w')
  {
    match e
    case Refuse => RejectIsFair(w, i, false);
    case Shed(quota, overflow) => ShedIsFair(w, i, quota, overflow);
    case Place(quota, worker) => PlaceIsFair(w, i, quota, worker);
    case Grant => GrantIsFair(w, i);
    case Resume(stream) => ResumeIsFair(w, i, stream);
    case QueueReject(overflow) => QueueRejectIsFair(w, i, overflow);
    case QueueCancel => CancelIsFair(w, i);
  }

  lemma LateStepIsFair(w: World, i: nat, e: Event, w': World)
    requires CanStep(w, i, e) && !e.Arrive? && !BeforeDispatch(e) && Local(w.reqs[i]) && w' == Step(w, i, e)
    ensures Fair(w, i, w')
  {
    match e
    case WorkerAnswers(status, overflow) => FreeThenFinishIsFair(w, i, status, overflow);
    case OpenFails(status) =>
      var w1 := FreeWorker(w, i);
      FreeIsFair(w, i);
      GotoIsFair(w1, i, Closing(status));
      FairTwice(w, i, w1, w');
    case Closed(overflow) => FinishIsFair(w, i, w.reqs[i].phase.status, overflow);
    case Open => GotoIsFair(w, i, Body);
    case BodyEnds(status) =>
      if w.reqs[i].phase.Body? {
        FreeThenFinishIsFair(w, i, status, false);
      } else {
        OnceIsFair(w, i);
      }
    case Cleanup =>
      if w.reqs[i].phase.Body? || (w.reqs[i].phase.Done? && w.reqs[i].finished) {
        FreeThenFinishIsFair(w, i, 499, false);
      } else {
        OnceIsFair(w, i);
      }
    case OverflowFails =>
      if w.reqs[i].phase.fallback.RejectLocally? {
        RejectIsFair(w, i, false);
      } else {
        FinishIsFair(w, i, w.reqs[i].phase.fallback.status, false);
      }
    case OverflowAnswers => OnceIsFair(w, i);
    case OverflowOpens => GotoIsFair(w, i, OverflowBody);
  }

  lemma FairKeepsBalanced(w: World, i: nat, w': World)
    requires i < |w.reqs| && Balanced(w) && Fair(w, i, w')
    ensures Balanced(w')
  {
    forall k
      ensures BalancedFor(w', k)
    {
      var r' := w'.reqs[i];
      assert BalancedFor(w, k) && FairFor(w, i, w', k);
      WeighUpdate(w.reqs, i, r', OfPending(k));
      WeighUpdate(w.reqs, i, r', OfInflight(k));
      WeighUpdate(w.reqs, i, r', OfTokens(k));
      WeighUpdate(w.reqs, i, r', OfSlots(k));
      WeighUpdate(w.reqs, i, r', OfActive(k));
    }
  }

  // ---- and keeps the request's own flags in order ----

  lemma ShedIsLocal(w: World, i: nat, quota: bool, overflow: bool)
    requires CanStep(w, i, Shed(quota, overflow)) && Local(w.reqs[i])
    ensures var w' := RejectOr(TakeLease(w, i, quota), i, overflow); |w'.reqs| == |w.reqs| && Local(w'.reqs[i])
  {
  }

  lemma PlaceIsLocal(w: World, i: nat, quota: bool, worker: string)
    requires CanStep(w, i, Place(quota, worker)) && Local(w.reqs[i])
    ensures var w' := EnterQueue(TakeLease(w, i, quota), i, worker); |w'.reqs| == |w.reqs| && Local(w'.reqs[i])
  {
  }

  lemma ResumeIsLocal(w: World, i: nat, stream: bool)
    requires CanStep(w, i, Resume(stream)) && Local(w.reqs[i])
    ensures var w' := Dispatch(LeaveQueue(w, i), i, stream); |w'.reqs| == |w.reqs| && Local(w'.reqs[i])
  {
  }

  lemma QueueRejectIsLocal(w: World, i: nat, overflow: bool)
    requires CanStep(w, i, QueueReject(overflow)) && Local(w.reqs[i])
    ensures var w' := RejectOr(LeaveQueue(w, i), i, overflow); |w'.reqs| == |w.reqs| && Local(w'.reqs[i])
  {
  }

  lemma QueueCancelIsLocal(w: World, i: nat)
    requires CanStep(w, i, QueueCancel) && Local(w.reqs[i])
    ensures var w' := LeaseBackAndStop(LeaveQueue(TicketBack(w, i), i), i); |w'.reqs| == |w.reqs| && Local(w'.reqs[i])
  {
  }

  lemma EarlyStepIsLocal(w: World, i: nat, e: Event, w': World)
    requires CanStep(w, i, e) && BeforeDispatch(e) && Local(w.reqs[i]) && w' == Step(w, i, e)
    ensures |w'.reqs| == |w.reqs| && Local(w'.reqs[i])
  {
    match e
    case Refuse => assert w'.reqs[i] == Rejected(w.reqs[i]).(phase := Done(false));
    case Shed(quota, overflow) => ShedIsLocal(w, i, quota, overflow);
    case Place(quota, worker) => PlaceIsLocal(w, i, quota, worker);
    case Grant => assert w'.reqs[i] == w.reqs[i].(ticket := Held);
    case Resume(stream) => ResumeIsLocal(w, i, stream);
    case QueueReject(overflow) => QueueRejectIsLocal(w, i, overflow);
    case QueueCancel => QueueCancelIsLocal(w, i);
  }

  predicate AtWorker(e: Event) {
    e.WorkerAnswers? || e.OpenFails? || e.Closed? || e.Open?
  }

  lemma AnswerIsLocal(w: World, i: nat, status: int, overflow: bool)
    requires CanStep(w, i, WorkerAnswers(status, overflow)) && Local(w.reqs[i])
    ensures var w' := FinishOr(FreeWorker(w, i), i, status, overflow); |w'.reqs| == |w.reqs| && Local(w'.reqs[i])
  {
  }

  lemma ClosedIsLocal(w: World, i: nat, overflow: bool)
    requires CanStep(w, i, Closed(overflow)) && Local(w.reqs[i])
    ensures var w' := FinishOr(w, i, w.reqs[i].phase.status, overflow); |w'.reqs| == |w.reqs| && Local(w'.reqs[i])
  {
  }

  lemma WorkerStepIsLocal(w: World, i: nat, e: Event, w': World)
    requires CanStep(w, i, e) && AtWorker(e) && Local(w.reqs[i]) && w' == Step(w, i, e)
    ensures |w'.reqs| == |w.reqs| && Local(w'.reqs[i])
  {
    match e
    case WorkerAnswers(status, overflow) => AnswerIsLocal(w, i, status, overflow);
    case OpenFails(status) => assert w'.reqs[i] == Freed(w.reqs[i]).(phase := Closing(status));
    case Closed(overflow) => ClosedIsLocal(w, i, overflow);
    case Open => assert w'.reqs[i] == w.reqs[i].(phase := Body);
  }

  lemma FinishedIsLocal(r: Req, status: int)
    requires Local(r) && (r.phase.Body? || (r.phase.Done? && r.finished))
    ensures Local(Finished(Freed(r), status).(phase := Done(false)))
  {
  }

  lemma SettledIsLocal(r: Req)
    requires Local(r) && (r.phase.OverflowBody? || r.phase.Overflowing? || (r.phase.Done? && r.overflowed))
    ensures Local(Settled(r).(phase := Done(false)))
  {
  }

  lemma FreedAndFinishedIsLocal(w: World, i: nat, status: int)
    requires i < |w.reqs| && Local(w.reqs[i]) && (w.reqs[i].phase.Body? || (w.reqs[i].phase.Done? && w.reqs[i].finished))
    ensures var w' := Goto(Finish(FreeWorker(w, i), i, status), i, Done(false)); |w'.reqs| == |w.reqs| && Local(w'.reqs[i])
  {
    FinishedIsLocal(w.reqs[i], status);
  }

  lemma OverflowEndIsLocal(w: World, i: nat)
    requires i < |w.reqs| && Local(w.reqs[i])
    requires w.reqs[i].phase.OverflowBody? || w.reqs[i].phase.Overflowing? || (w.reqs[i].phase.Done? && w.reqs[i].overflowed)
    ensures var w' := Goto(Once(w, i), i, Done(false)); |w'.reqs| == |w.reqs| && Local(w'.reqs[i])
  {
    SettledIsLocal(w.reqs[i]);
  }

  lemma EndStepIsLocal(w: World, i: nat, e: Event, w': World)
    requires CanStep(w, i, e) && (e.BodyEnds? || e.Cleanup?) && Local(w.reqs[i]) && w' == Step(w, i, e)
    ensures |w'.reqs| == |w.reqs| && Local(w'.reqs[i])
  {
    var r := w.reqs[i];
    if r.phase.Body? || (e.Cleanup? && r.phase.Done? && r.finished) {
      FreedAndFinishedIsLocal(w, i, if e.Cleanup? then 499 else e.status);
    } else {
      OverflowEndIsLocal(w, i);
    }
  }

  lemma OverflowStepIsLocal(w: World, i: nat, e: Event, w': World)
    requires CanStep(w, i, e) && (e.OverflowFails? || e.OverflowAnswers? || e.OverflowOpens?)
    requires Local(w.reqs[i]) && w' == Step(w, i, e)
    ensures |w'.reqs| == |w.reqs| && Local(w'.reqs[i])
  {
    var r := w.reqs[i];
    match e
    case OverflowFails =>
      if r.phase.fallback.RejectLocally? {
        assert w'.reqs[i] == Rejected(r).(phase := Done(false));
      } else {
        assert w'.reqs[i] == Finished(r, r.phase.fallback.status).(phase := Done(false));
      }
    case OverflowAnswers => assert w'.reqs[i] == Settled(r).(phase := Done(false));
    case OverflowOpens => assert w'.reqs[i] == r.(phase := OverflowBody);
  }

  // ---- and the dispatch tokens in step ----

  /** The request's place among the dispatched ones does not change. */
  predicate SameFlight(w: World, i: nat, w': World) {
    && i < |w.reqs| && |w'.reqs| == |w.reqs|
    && w'.recent == w.recent && w'.issued == w.issued
    && (w.reqs[i].dispatched && !w.reqs[i].freed <==> w'.reqs[i].dispatched && !w'.reqs[i].freed)
    && (w.reqs[i].dispatched ==> w'.reqs[i].worker == w.reqs[i].worker && w'.reqs[i].token == w.reqs[i].token)
  }

  predicate OthersKept(w: World, i: nat, w': World) {
    |w'.reqs| == |w.reqs| && forall j :: 0 <= j < |w.reqs| && j != i ==> w'.reqs[j] == w.reqs[j]
  }

  lemma SameFlightKeepsTracked(w: World, i: nat, w': World)
    requires SameFlight(w, i, w') && OthersKept(w, i, w') && Tracked(w)
    ensures Tracked(w')
  {
    assert forall k, j :: 0 <= j < |w.reqs| ==>
             (InFlight(k, w'.reqs[j]) <==> InFlight(k, w.reqs[j]))
             && (InFlight(k, w.reqs[j]) ==> w'.reqs[j].token == w.reqs[j].token);
    forall k, t | t in Get(w'.recent, k, {})
      ensures t <= Get(w'.issued, k, 0)
      ensures exists j :: 0 <= j < |w'.reqs| && InFlight(k, w'.reqs[j]) && w'.reqs[j].token == t
    {
      var j :| 0 <= j < |w.reqs| && InFlight(k, w.reqs[j]) && w.reqs[j].token == t;
      assert InFlight(k, w'.reqs[j]);
    }
  }

  /** A dispatch still recorded belongs to another request, which is still in flight. */
  lemma FreeKeepsRecorded(w: World, i: nat, w': World, k: string, t: nat)
    requires i < |w.reqs| && w.reqs[i].dispatched && !w.reqs[i].freed && Tracked(w) && w' == FreeWorker(w, i)
    requires OthersKept(w, i, w') && t in Get(w'.recent, k, {})
    ensures t <= Get(w'.issued, k, 0)
    ensures exists j :: 0 <= j < |w'.reqs| && InFlight(k, w'.reqs[j]) && w'.reqs[j].token == t
  {
    assert t in Get(w.recent, k, {});
    var j :| 0 <= j < |w.reqs| && InFlight(k, w.reqs[j]) && w.reqs[j].token == t;
    assert j != i;
    assert InFlight(k, w'.reqs[j]);
  }

  /** A request still in flight keeps its record. */
  lemma FreeKeepsFlying(w: World, i: nat, w': World, k: string, j: nat)
    requires i < |w.reqs| && w.reqs[i].dispatched && !w.reqs[i].freed && Tracked(w) && w' == FreeWorker(w, i)
    requires OthersKept(w, i, w') && j < |w'.reqs| && InFlight(k, w'.reqs[j])
    ensures j != i && w'.reqs[j].token in Get(w'.recent, k, {})
  {
    assert j != i && InFlight(k, w.reqs[j]);
    assert w.reqs[j].token in Get(w.recent, k, {});
    if k == w.reqs[i].worker {
      assert InFlight(k, w.reqs[i]);
      DifferentTokens(w, k, i, j);
    }
  }

  lemma DifferentTokens(w: World, k: string, i: nat, j: nat)
    requires Tracked(w) && i < |w.reqs| && j < |w.reqs| && i != j && InFlight(k, w.reqs[i]) && InFlight(k, w.reqs[j])
    ensures w.reqs[i].token != w.reqs[j].token
  {
  }

  lemma FreeKeepsTracked(w: World, i: nat)
    requires i < |w.reqs| && w.reqs[i].dispatched && Tracked(w)
    ensures Tracked(FreeWorker(w, i))
  {
    var w' := FreeWorker(w, i);
    if !w.reqs[i].freed {
      forall k, t | t in Get(w'.recent, k, {})
        ensures t <= Get(w'.issued, k, 0)
        ensures exists j :: 0 <= j < |w'.reqs| && InFlight(k, w'.reqs[j]) && w'.reqs[j].token == t
      {
        FreeKeepsRecorded(w, i, w', k, t);
      }
      forall k, j: nat | j < |w'.reqs| && InFlight(k, w'.reqs[j])
        ensures j != i && w'.reqs[j].token in Get(w'.recent, k, {})
      {
        FreeKeepsFlying(w, i, w', k, j);
      }
      forall k, a: nat, b: nat | a < b < |w'.reqs| && InFlight(k, w'.reqs[a]) && InFlight(k, w'.reqs[b])
        ensures w'.reqs[a].token != w'.reqs[b].token
      {
        assert w'.reqs[a] == w.reqs[a] && w'.reqs[b] == w.reqs[b];
        DifferentTokens(w, k, a, b);
      }
    }
  }

  lemma DispatchKeepsRecorded(w: World, i: nat, w': World, k: string, t: nat)
    requires i < |w.reqs| && !w.reqs[i].dispatched && Tracked(w) && OthersKept(w, i, w')
    requires w'.recent == w.recent[w.reqs[i].worker := Get(w.recent, w.reqs[i].worker, {}) + {Get(w.issued, w.reqs[i].worker, 0) + 1}]
    requires w'.issued == w.issued[w.reqs[i].worker := Get(w.issued, w.reqs[i].worker, 0) + 1]
    requires InFlight(w.reqs[i].worker, w'.reqs[i]) && w'.reqs[i].token == Get(w.issued, w.reqs[i].worker, 0) + 1
    requires t in Get(w'.recent, k, {})
    ensures t <= Get(w'.issued, k, 0)
    ensures exists j :: 0 <= j < |w'.reqs| && InFlight(k, w'.reqs[j]) && w'.reqs[j].token == t
  {
    if !(k == w.reqs[i].worker && t == w'.reqs[i].token) {
      assert t in Get(w.recent, k, {});
      var j :| 0 <= j < |w.reqs| && InFlight(k, w.reqs[j]) && w.reqs[j].token == t;
      assert j != i && InFlight(k, w'.reqs[j]);
    }
  }

  lemma DispatchKeepsTracked(w: World, i: nat, stream: bool)
    requires i < |w.reqs| && !w.reqs[i].dispatched && !w.reqs[i].freed && Tracked(w)
    ensures Tracked(Dispatch(w, i, stream))
  {
    var w' := Dispatch(w, i, stream);
    var x, t0 := w.reqs[i].worker, Get(w.issued, w.reqs[i].worker, 0) + 1;
    assert OthersKept(w, i, w');
    assert w'.reqs[i].token == t0 && InFlight(x, w'.reqs[i]);
    forall k, t | t in Get(w'.recent, k, {})
      ensures t <= Get(w'.issued, k, 0)
      ensures exists j :: 0 <= j < |w'.reqs| && InFlight(k, w'.reqs[j]) && w'.reqs[j].token == t
    {
      DispatchKeepsRecorded(w, i, w', k, t);
    }
    forall k, j | 0 <= j < |w'.reqs| && InFlight(k, w'.reqs[j])
      ensures w'.reqs[j].token in Get(w'.recent, k, {})
      ensures j != i && k == x ==> w'.reqs[j].token != t0
    {
      if j != i {
        FlyingIsRecorded(w, k, j);
      }
    }
  }

  lemma FlyingIsRecorded(w: World, k: string, j: nat)
    requires Tracked(w) && j < |w.reqs| && InFlight(k, w.reqs[j])
    ensures w.reqs[j].token in Get(w.recent, k, {}) && w.reqs[j].token <= Get(w.issued, k, 0)
  {
    assert w.reqs[j].token in Get(w.recent, k, {});
  }

  lemma EarlySameFlight(w: World, i: nat, e: Event, w': World)
    requires CanStep(w, i, e) && BeforeDispatch(e) && !e.Resume? && Local(w.reqs[i]) && w' == Step(w, i, e)
    ensures SameFlight(w, i, w')
  {
    match e
    case Refuse =>
    case Shed(quota, overflow) =>
    case Place(quota, worker) =>
    case Grant =>
    case QueueReject(overflow) =>
    case QueueCancel =>
  }

  lemma EarlyStepKeepsTracked(w: World, i: nat, e: Event, w': World)
    requires CanStep(w, i, e) && BeforeDispatch(e) && Local(w.reqs[i]) && Tracked(w) && w' == Step(w, i, e)
    ensures Tracked(w')
  {
    if e.Resume? {
      var w1 := LeaveQueue(w, i);
      SameFlightKeepsTracked(w, i, w1);
      DispatchKeepsTracked(w1, i, e.stream);
    } else {
      EarlySameFlight(w, i, e, w');
      EarlyStepIsFair(w, i, e, w');
      SameFlightKeepsTracked(w, i, w');
    }
  }

  predicate Frees(r: Req, e: Event) {
    || e.WorkerAnswers? || e.OpenFails? || (e.BodyEnds? && r.phase.Body?)
    || (e.Cleanup? && (r.phase.Body? || (r.phase.Done? && r.finished)))
  }

  lemma FinishSameFlight(w: World, i: nat, status: int, overflow: bool)
    requires i < |w.reqs|
    ensures SameFlight(w, i, FinishOr(w, i, status, overflow))
  {
  }

  lemma FreeingSameFlight(w: World, i: nat, e: Event, w': World)
    requires CanStep(w, i, e) && !e.Arrive? && Frees(w.reqs[i], e) && w' == Step(w, i, e)
    ensures SameFlight(FreeWorker(w, i), i, w')
  {
    var w1 := FreeWorker(w, i);
    if e.WorkerAnswers? {
      FinishSameFlight(w1, i, e.status, e.overflow);
    } else if e.BodyEnds? {
      FinishSameFlight(w1, i, e.status, false);
    } else if e.Cleanup? {
      FinishSameFlight(w1, i, 499, false);
    }
  }

  lemma RejectSameFlight(w: World, i: nat)
    requires i < |w.reqs|
    ensures SameFlight(w, i, Goto(Reject(w, i), i, Done(false)))
  {
  }

  lemma OnceSameFlight(w: World, i: nat)
    requires i < |w.reqs|
    ensures SameFlight(w, i, Goto(Once(w, i), i, Done(false)))
  {
  }

  lemma GotoSameFlight(w: World, i: nat, p: Phase)
    requires i < |w.reqs|
    ensures SameFlight(w, i, Goto(w, i, p))
  {
  }

  lemma OtherSameFlight(w: World, i: nat, e: Event, w': World)
    requires CanStep(w, i, e) && !e.Arrive? && !BeforeDispatch(e) && !Frees(w.reqs[i], e) && w' == Step(w, i, e)
    ensures SameFlight(w, i, w')
  {
    match e
    case Closed(overflow) => FinishSameFlight(w, i, w.reqs[i].phase.status, overflow);
    case Open => GotoSameFlight(w, i, Body);
    case BodyEnds(status) => OnceSameFlight(w, i);
    case Cleanup => OnceSameFlight(w, i);
    case OverflowFails =>
      if w.reqs[i].phase.fallback.RejectLocally? {
        RejectSameFlight(w, i);
      } else {
        FinishSameFlight(w, i, w.reqs[i].phase.fallback.status, false);
      }
    case OverflowAnswers => OnceSameFlight(w, i);
    case OverflowOpens => GotoSameFlight(w, i, OverflowBody);
  }

  lemma LateStepKeepsTracked(w: World, i: nat, e: Event, w': World)
    requires CanStep(w, i, e) && !e.Arrive? && !BeforeDispatch(e) && Local(w.reqs[i]) && Tracked(w) && w' == Step(w, i, e)
    ensures Tracked(w')
  {
    LateStepIsFair(w, i, e, w');
    if Frees(w.reqs[i], e) {
      FreeKeepsTracked(w, i);
      FreeIsFair(w, i);
      FreeingSameFlight(w, i, e, w');
      SameFlightKeepsTracked(FreeWorker(w, i), i, w');
    } else {
      OtherSameFlight(w, i, e, w');
      SameFlightKeepsTracked(w, i, w');
    }
  }

  // ---- Runs ----

  lemma ArriveKeepsInv(w: World, bucket: string, tokens: nat)
    requires Inv(w)
    ensures Inv(w.(reqs := w.reqs + [NewReq(bucket, tokens)]))
  {
    var r := NewReq(bucket, tokens);
    var w' := w.(reqs := w.reqs + [r]);
    forall k
      ensures BalancedFor(w', k)
    {
      assert BalancedFor(w, k);
      WeighAppend(w.reqs, r, OfPending(k));
      WeighAppend(w.reqs, r, OfInflight(k));
      WeighAppend(w.reqs, r, OfTokens(k));
      WeighAppend(w.reqs, r, OfSlots(k));
      WeighAppend(w.reqs, r, OfActive(k));
    }
    forall k, t | t in Get(w'.recent, k, {})
      ensures t <= Get(w'.issued, k, 0)
      ensures exists j :: 0 <= j < |w'.reqs| && InFlight(k, w'.reqs[j]) && w'.reqs[j].token == t
    {
      var j :| 0 <= j < |w.reqs| && InFlight(k, w.reqs[j]) && w.reqs[j].token == t;
      assert w'.reqs[j] == w.reqs[j];
    }
  }

  lemma StepKeepsInv(w: World, i: nat, e: Event, w': World)
    requires CanStep(w, i, e) && Inv(w) && w' == Step(w, i, e)
    ensures Inv(w')
  {
    if e.Arrive? {
      ArriveKeepsInv(w, e.bucket, e.tokens);
    } else if BeforeDispatch(e) {
      EarlyStepIsFair(w, i, e, w');
      EarlyStepIsLocal(w, i, e, w');
      EarlyStepKeepsTracked(w, i, e, w');
      FairKeepsBalanced(w, i, w');
    } else {
      LateStepIsFair(w, i, e, w');
      if AtWorker(e) {
        WorkerStepIsLocal(w, i, e, w');
      } else if e.BodyEnds? || e.Cleanup? {
        EndStepIsLocal(w, i, e, w');
      } else {
        OverflowStepIsLocal(w, i, e, w');
      }
      LateStepKeepsTracked(w, i, e, w');
      FairKeepsBalanced(w, i, w');
    }
  }

  datatype Move = Move(request: nat, event: Event)

  /** Any sequence of moves; one that is not possible when its turn comes is skipped. */
  function Exec(moves: seq<Move>): World {
    if moves == [] then Idle
    else
      var w, m := Exec(moves[..|moves| - 1]), moves[|moves| - 1];
      if CanStep(w, m.request, m.event) then Step(w, m.request, m.event) else w
  }

  lemma {:induction false} ExecKeepsInv(moves: seq<Move>)
    ensures Inv(Exec(moves))
  {
    if moves != [] {
      var front, m := moves[..|moves| - 1], moves[|moves| - 1];
      ExecKeepsInv(front);
      if CanStep(Exec(front), m.request, m.event) {
        StepKeepsInv(Exec(front), m.request, m.event, Exec(moves));
      }
    } else {
      assert forall k :: BalancedFor(Idle, k);
    }
  }

  /**
   * Accounting: in every interleaving of any number of requests, each counter equals what the
   * requests that hold a share of it add up to, and the recorded dispatches are theirs.
   */
  lemma CountersAreExact(moves: seq<Move>, k: string)
    ensures var w := Exec(moves);
            && Get(w.pending, k, 0) == Weigh(w.reqs, OfPending(k))
            && Get(w.inflight, k, 0) == Weigh(w.reqs, OfInflight(k))
            && Get(w.tokens, k, 0) == Weigh(w.reqs, OfTokens(k))
            && Get(w.slots, k, 0) == Weigh(w.reqs, OfSlots(k))
            && Get(w.active, k, 0) == Weigh(w.reqs, OfActive(k))
            && forall t :: t in Get(w.recent, k, {})
                 <==> exists i :: 0 <= i < |w.reqs| && InFlight(k, w.reqs[i]) && w.reqs[i].token == t
  {
    ExecKeepsInv(moves);
    assert BalancedFor(Exec(moves), k);
  }

  /**
   * Exactly once: a finished request has given back its lease and its ticket, was counted once
   * (or not at all if its client went away while it was queued), and its tokens were refunded if
   * and only if it did not overflow and was never dispatched or ended with a status of 500 or more.
   */
  lemma GivenBackExactlyOnce(moves: seq<Move>, i: nat)
    requires i < |Exec(moves).reqs| && Exec(moves).reqs[i].phase.Done?
    ensures var r := Exec(moves).reqs[i];
            && r.lease != Held && r.ticket != Held && (r.dispatched ==> r.freed && r.ticket == Returned)
            && r.answers == (if r.phase.cancelled then 0 else 1)
            && (r.lease == Returned ==> (r.refunded <==> !r.overflowed && (!r.dispatched || r.status >= 500)))
  {
    ExecKeepsInv(moves);
    assert Local(Exec(moves).reqs[i]);
  }

  /** Quiescence: when every request is done, every counter is back at zero. */
  lemma AllDoneAllZero(moves: seq<Move>, k: string)
    requires forall i :: 0 <= i < |Exec(moves).reqs| ==> Exec(moves).reqs[i].phase.Done?
    ensures var w := Exec(moves);
            && Get(w.pending, k, 0) == Get(w.inflight, k, 0) == Get(w.tokens, k, 0) == 0
            && Get(w.slots, k, 0) == Get(w.active, k, 0) == 0 && Get(w.recent, k, {}) == {}
  {
    CountersAreExact(moves, k);
    var w := Exec(moves);
    forall i | 0 <= i < |w.reqs|
      ensures w.reqs[i].phase.Done? && w.reqs[i].lease != Held && w.reqs[i].ticket != Held && !InFlight(k, w.reqs[i])
    {
      GivenBackExactlyOnce(moves, i);
    }
    NoShares(w.reqs, k);
  }

  lemma NoShares(q: seq<Req>, k: string)
    requires forall i :: 0 <= i < |q| ==> q[i].phase.Done? && q[i].lease != Held && q[i].ticket != Held && !InFlight(k, q[i])
    ensures Weigh(q, OfPending(k)) == Weigh(q, OfInflight(k)) == Weigh(q, OfTokens(k)) == 0
    ensures Weigh(q, OfSlots(k)) == Weigh(q, OfActive(k)) == 0
  {
    WeighZero(q, OfPending(k));
    WeighZero(q, OfInflight(k));
    WeighZero(q, OfTokens(k));
    WeighZero(q, OfSlots(k));
    WeighZero(q, OfActive(k));
  }

  // ---- The closures in their in-place form, over the real ticket, lease and snapshot ----

  /** A dispatched request: `free_worker`, `finish` and `release` with their flags. */
  class Exchange {
    const snap: Workers.WorkerSnapshot
    const ticket: Queueing.QueueTicket
    const lease: Tenants.Lease
    const tokens: nat
    const token: nat
    var freed: bool
    var finished: bool

    /** Taking the worker's counters; the ticket and the lease are already held. */
    constructor (snap: Workers.WorkerSnapshot, ticket: Queueing.QueueTicket, lease: Tenants.Lease, tokens: nat, now: real)
      modifies snap
      ensures this.snap == snap && this.ticket == ticket && this.lease == lease && this.tokens == tokens
      ensures !freed && !finished
      ensures snap.inflight == old(snap.inflight) + 1 && snap.inflightTokens == old(snap.inflightTokens) + tokens
      ensures snap.load == Workers.LoadStep(old(snap.load), Workers.Dispatched(now)) && token == snap.load.lastToken
      ensures snap.health == old(snap.health)
    {
      snap.inflight := snap.inflight + 1;
      snap.inflightTokens := snap.inflightTokens + tokens;
      var t := snap.NoteDispatch(now);
      this.snap, this.ticket, this.lease, this.tokens, this.token := snap, ticket, lease, tokens, t;
      freed, finished := false, false;
    }

    /** The worker's counters and the ticket go back once, however often this is called. */
    method FreeWorker()
      requires !ticket.done ==> ticket.id in ticket.queues.View(ticket.worker).held
      modifies this`freed, snap, ticket`done, ticket.queues`waiting, ticket.queues`inflight, ticket.queues`past
      ensures freed && snap.health == old(snap.health)
      ensures old(freed) ==>
                && snap.inflight == old(snap.inflight) && snap.inflightTokens == old(snap.inflightTokens)
                && snap.load == old(snap.load) && ticket.done == old(ticket.done)
                && ticket.queues.View(ticket.worker) == old(ticket.queues.View(ticket.worker))
      ensures !old(freed) ==>
                && snap.inflight == old(snap.inflight) - 1
                && snap.inflightTokens == old(snap.inflightTokens) - tokens
                && snap.load == Workers.LoadStep(old(snap.load), Workers.FinishedToken(token))
                && ticket.done
                && ticket.queues.View(ticket.worker)
                   == if old(ticket.done) then old(ticket.queues.View(ticket.worker))
                      else Queueing.GiveBack(ticket.queues.cfg, old(ticket.queues.View(ticket.worker)), ticket.id)
    {
      if freed {
        return;
      }
      freed := true;
      snap.inflight := snap.inflight - 1;
      snap.inflightTokens := snap.inflightTokens - tokens;
      snap.NoteFinish(token);
      ticket.Release();
    }

    /** The lease goes back once; a status of 500 or more refunds its tokens. */
    method Finish(status: int)
      modifies this`finished, lease, lease.bucket
      ensures finished
      ensures old(finished) ==> lease.bucket == old(lease.bucket)
                                && (lease.bucket != null ==> lease.bucket.View() == old(lease.bucket.View()))
      ensures !old(finished) ==> lease.bucket == null
      ensures !old(finished) && old(lease.bucket) != null ==>
                old(lease.bucket).View() == Tenants.Return(old(lease.bucket.View()), lease.entry, status >= 500)
    {
      if finished {
        return;
      }
      finished := true;
      lease.Release(status >= 500);
    }
  }
}
