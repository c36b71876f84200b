/**
 * The request handler together with the tenant quota (services/gateway/main.py over
 * services/gateway/tenants.py): each lease a request takes is one grant of its bucket, and giving it
 * back, with or without refund, is what happens to that grant.
 */
module Quotas {
  import opened Basics
  import G = Gateway
  import L = Lifecycle
  import T = Tenants

  /** `leases[i]` is the number, in its bucket's log, of the grant that request `i` got. */
  datatype Joint = Joint(w: L.World, buckets: map<string, T.State>, leases: seq<nat>)

  const Start: Joint := Joint(L.Idle, map[], [])

  function BucketOf(j: Joint, b: string): T.State {
    Get(j.buckets, b, T.Init(0.0))
  }

  predicate Leases(w: L.World, b: string, i: int) {
    0 <= i < |w.reqs| && w.reqs[i].bucket == b && w.reqs[i].lease == L.Held
  }

  predicate HadLease(w: L.World, b: string, i: int) {
    0 <= i < |w.reqs| && w.reqs[i].bucket == b && w.reqs[i].lease != L.Never
  }

  /** Every lease ever taken is one grant of the bucket, released and refunded when the request's lease is. */
  ghost predicate Linked(w: L.World, leases: seq<nat>, b: string, s: T.State)
    requires |leases| == |w.reqs|
  {
    && (forall i :: HadLease(w, b, i) ==>
          && leases[i] < |s.log|
          && (s.log[leases[i]].released <==> w.reqs[i].lease == L.Returned)
          && s.log[leases[i]].refunded == w.reqs[i].refunded)
    && (forall i, m :: HadLease(w, b, i) && HadLease(w, b, m) && i != m ==> leases[i] != leases[m])
    && s.bucket.active == Weigh(w.reqs, L.OfActive(b))
  }

  predicate Bounded(c: T.Config, s: T.State) {
    s.bucket.active <= Max(0, c.maxConcurrency)
  }

  ghost predicate Good(c: T.Config, w: L.World, leases: seq<nat>, b: string, s: T.State)
    requires |leases| == |w.reqs|
  {
    Linked(w, leases, b, s) && Bounded(c, s)
  }

  ghost predicate Inv(c: T.Config, j: Joint) {
    && |j.leases| == |j.w.reqs| && L.Inv(j.w)
    && forall b :: Good(c, j.w, j.leases, b, BucketOf(j, b))
  }

  // ---- Moves ----

  /** One segment of the handler of request `i`, at clock reading `now`; `asked` tells a quota refusal from a guard's. */
  datatype Move = Move(i: nat, e: L.Event, now: real, asked: bool)

  predicate TakesLease(e: L.Event) {
    (e.Shed? && e.quota) || (e.Place? && e.quota)
  }

  /** The segment asks the bucket for a lease. */
  predicate Asks(m: Move) {
    TakesLease(m.e) || (m.e.Refuse? && m.asked)
  }

  /** The clock is monotone, and a segment that asks takes a lease exactly when the bucket grants it. */
  predicate CanMove(c: T.Config, j: Joint, m: Move) {
    && L.CanStep(j.w, m.i, m.e)
    && (Asks(m) ==>
          var r := j.w.reqs[m.i];
          var s := BucketOf(j, r.bucket);
          && m.now >= s.clock
          && (T.Judge(c, T.Prune(s.bucket, m.now - c.window), r.tokens, m.now).Accept? <==> TakesLease(m.e)))
  }

  /** The bucket after it was asked, if it was. */
  function Granted(c: T.Config, s: T.State, r: L.Req, m: Move): T.State {
    if Asks(m) then T.Step(c, s, T.Acquire(r.tokens, m.now)) else s
  }

  /** What the bucket of request `i` becomes when the request goes from `r` to `r'`. */
  function Settled(c: T.Config, s: T.State, lease: nat, r: L.Req, r': L.Req): T.State {
    if r.lease != L.Returned && r'.lease == L.Returned then T.Step(c, s, T.Release(lease, r'.refunded)) else s
  }

  function Step(c: T.Config, j: Joint, m: Move): Joint
    requires CanMove(c, j, m) && |j.leases| == |j.w.reqs|
  {
    var w' := L.Step(j.w, m.i, m.e);
    if m.e.Arrive? then Joint(w', j.buckets, j.leases + [0])
    else
      var r := j.w.reqs[m.i];
      var r' := if m.i < |w'.reqs| then w'.reqs[m.i] else r;
      var s := BucketOf(j, r.bucket);
      var lease := if TakesLease(m.e) then |s.log| else j.leases[m.i];
      Joint(w', j.buckets[r.bucket := Settled(c, Granted(c, s, r, m), lease, r, r')], j.leases[m.i := lease])
  }

  // ---- What one segment does to the lease of its request ----

  predicate LeasePasses(r: L.Req, e: L.Event, r': L.Req) {
    && r'.bucket == r.bucket && r'.tokens == r.tokens
    && (r.lease == L.Held ==> r'.lease != L.Never)
    && (r.lease == L.Returned ==> r'.lease == L.Returned && r'.refunded == r.refunded)
    && (TakesLease(e) ==> r.lease == L.Never && r'.lease != L.Never)
    && (!TakesLease(e) && r.lease == L.Never ==> r'.lease == L.Never)
  }

  lemma EarlyLeasePasses(w: L.World, i: nat, e: L.Event)
    requires !e.Arrive? && !e.Grant? && L.BeforeDispatch(e) && L.CanStep(w, i, e) && L.Local(w.reqs[i])
    ensures var w' := L.Step(w, i, e); |w'.reqs| == |w.reqs| && LeasePasses(w.reqs[i], e, w'.reqs[i])
  {
    match e
    case Refuse =>
    case Shed(quota, overflow) => ShedLeasePasses(w, i, quota, overflow);
    case Place(quota, worker) => assert L.TakeLease(w, i, quota).reqs[i].bucket == w.reqs[i].bucket;
    case Resume(stream) => assert L.LeaveQueue(w, i).reqs[i].lease == w.reqs[i].lease;
    case QueueReject(overflow) => assert L.LeaveQueue(w, i).reqs[i].lease == w.reqs[i].lease;
    case QueueCancel => CancelLeasePasses(w, i);
  }

  lemma ShedLeasePasses(w: L.World, i: nat, quota: bool, overflow: bool)
    requires L.CanStep(w, i, L.Shed(quota, overflow)) && L.Local(w.reqs[i])
    ensures var w' := L.RejectOr(L.TakeLease(w, i, quota), i, overflow);
            |w'.reqs| == |w.reqs| && LeasePasses(w.reqs[i], L.Shed(quota, overflow), w'.reqs[i])
  {
  }

  lemma CancelLeasePasses(w: L.World, i: nat)
    requires L.CanStep(w, i, L.QueueCancel) && L.Local(w.reqs[i])
    ensures var w' := L.LeaseBackAndStop(L.LeaveQueue(L.TicketBack(w, i), i), i);
            |w'.reqs| == |w.reqs| && LeasePasses(w.reqs[i], L.QueueCancel, w'.reqs[i])
  {
    assert L.TicketBack(w, i).reqs[i].lease == w.reqs[i].lease;
  }

  lemma WorkerLeasePasses(w: L.World, i: nat, e: L.Event)
    requires L.AtWorker(e) && L.CanStep(w, i, e) && L.Local(w.reqs[i])
    ensures var w' := L.Step(w, i, e); |w'.reqs| == |w.reqs| && LeasePasses(w.reqs[i], e, w'.reqs[i])
  {
    match e
    case WorkerAnswers(status, overflow) => assert L.FreeWorker(w, i).reqs[i] == L.Freed(w.reqs[i]);
    case OpenFails(status) => assert L.FreeWorker(w, i).reqs[i] == L.Freed(w.reqs[i]);
    case Closed(overflow) =>
    case Open =>
  }

  lemma EndLeasePasses(w: L.World, i: nat, e: L.Event)
    requires (e.BodyEnds? || e.Cleanup?) && L.CanStep(w, i, e) && L.Local(w.reqs[i])
    ensures var w' := L.Step(w, i, e); |w'.reqs| == |w.reqs| && LeasePasses(w.reqs[i], e, w'.reqs[i])
  {
    assert L.FreeWorker(w, i).reqs[i] == L.Freed(w.reqs[i]);
  }

  lemma OverflowLeasePasses(w: L.World, i: nat, e: L.Event)
    requires (e.OverflowFails? || e.OverflowAnswers? || e.OverflowOpens?) && L.CanStep(w, i, e) && L.Local(w.reqs[i])
    ensures var w' := L.Step(w, i, e); |w'.reqs| == |w.reqs| && LeasePasses(w.reqs[i], e, w'.reqs[i])
  {
  }

  lemma SegmentLeasePasses(w: L.World, i: nat, e: L.Event)
    requires L.Inv(w) && L.CanStep(w, i, e) && !e.Arrive?
    ensures var w' := L.Step(w, i, e);
            G.OnlyAt(w, i, w') && L.Inv(w') && L.Local(w'.reqs[i]) && LeasePasses(w.reqs[i], e, w'.reqs[i])
  {
    G.StepsOnly(w, i, e);
    assert L.Local(w.reqs[i]);
    if e.Grant? {
    } else if L.BeforeDispatch(e) {
      EarlyLeasePasses(w, i, e);
    } else if L.AtWorker(e) {
      WorkerLeasePasses(w, i, e);
    } else if e.BodyEnds? || e.Cleanup? {
      EndLeasePasses(w, i, e);
    } else {
      OverflowLeasePasses(w, i, e);
    }
  }

  // ---- What the bucket does ----

  lemma {:induction false} PruneKeepsActive(b: T.Bucket, horizon: real)
    ensures T.Prune(b, horizon).active == b.active
    decreases |b.window|
  {
    if b.window == [] || b.window[0].at > horizon {
    } else {
      PruneKeepsActive(b.(window := b.window[1..], tokens := b.tokens - b.window[0].tokens), horizon);
    }
  }

  lemma AcquireGrants(c: T.Config, s: T.State, tokens: nat, now: real, s': T.State)
    requires T.Judge(c, T.Prune(s.bucket, now - c.window), tokens, now).Accept? && s' == T.Step(c, s, T.Acquire(tokens, now))
    ensures s'.log == s.log + [T.Grant(T.Entry(now, tokens), false, false)]
    ensures s'.bucket.active == s.bucket.active + 1 <= c.maxConcurrency
  {
    PruneKeepsActive(s.bucket, now - c.window);
    T.AcquireIs(c, s, T.Acquire(tokens, now), T.State(T.Prune(s.bucket, now - c.window), s.log, now));
  }

  /** A refused request only ages the window. */
  lemma RefusedAsks(c: T.Config, s: T.State, tokens: nat, now: real, s': T.State)
    requires !T.Judge(c, T.Prune(s.bucket, now - c.window), tokens, now).Accept? && s' == T.Step(c, s, T.Acquire(tokens, now))
    ensures s'.log == s.log && s'.bucket.active == s.bucket.active
  {
    PruneKeepsActive(s.bucket, now - c.window);
    T.AcquireIs(c, s, T.Acquire(tokens, now), T.State(T.Prune(s.bucket, now - c.window), s.log, now));
  }

  lemma ReleaseReturns(c: T.Config, s: T.State, l: nat, refund: bool, s': T.State)
    requires l < |s.log| && !s.log[l].released && s' == T.Step(c, s, T.Release(l, refund))
    ensures s'.log == s.log[l := s.log[l].(released := true, refunded := refund)]
    ensures s'.bucket.active == s.bucket.active - 1
  {
  }

  // ---- The link is kept ----

  /** The grant of a lease that is taken in this segment. */
  lemma GrantLinks(c: T.Config, w: L.World, leases: seq<nat>, i: nat, r1: L.Req, b: string, s: T.State, s': T.State)
    requires |leases| == |w.reqs| && i < |w.reqs| && w.reqs[i].bucket == b && Good(c, w, leases, b, s)
    requires w.reqs[i].lease == L.Never && r1 == w.reqs[i].(lease := L.Held) && !r1.refunded
    requires exists g: T.Grant :: s'.log == s.log + [g] && !g.released && !g.refunded
    requires s'.bucket.active == s.bucket.active + 1 <= c.maxConcurrency
    ensures Good(c, w.(reqs := w.reqs[i := r1]), leases[i := |s.log|], b, s')
  {
    var w1, leases1 := w.(reqs := w.reqs[i := r1]), leases[i := |s.log|];
    WeighUpdate(w.reqs, i, r1, L.OfActive(b));
    forall m | HadLease(w1, b, m) && m != i
      ensures HadLease(w, b, m) && w1.reqs[m] == w.reqs[m] && leases1[m] == leases[m] < |s.log|
    {
      assert w1.reqs[m] == w.reqs[m];
    }
    assert s'.log[|s.log|] in s'.log && !s'.log[|s.log|].released && !s'.log[|s.log|].refunded;
  }

  /** A lease that is kept or given back, with the flags of its grant. */
  lemma SettleLinks(c: T.Config, w: L.World, leases: seq<nat>, i: nat, r': L.Req, b: string, s: T.State, s': T.State)
    requires |leases| == |w.reqs| && i < |w.reqs| && w.reqs[i].bucket == b == r'.bucket && Good(c, w, leases, b, s)
    requires w.reqs[i].lease == L.Never ==> r'.lease == L.Never
    requires w.reqs[i].lease == L.Held ==> r'.lease != L.Never && (r'.lease == L.Held ==> !r'.refunded)
    requires w.reqs[i].lease == L.Returned ==> r'.lease == L.Returned && r'.refunded == w.reqs[i].refunded
    requires w.reqs[i].lease == L.Held ==> !w.reqs[i].refunded
    requires s' == Settled(c, s, leases[i], w.reqs[i], r')
    ensures Good(c, w.(reqs := w.reqs[i := r']), leases, b, s')
  {
    var w' := w.(reqs := w.reqs[i := r']);
    WeighUpdate(w.reqs, i, r', L.OfActive(b));
    if w.reqs[i].lease == L.Held && r'.lease == L.Returned {
      assert HadLease(w, b, i);
      ReleaseReturns(c, s, leases[i], r'.refunded, s');
    }
    forall m | HadLease(w', b, m)
      ensures HadLease(w, b, m) && (m != i ==> w'.reqs[m] == w.reqs[m]) && (m != i && HadLease(w, b, i) ==> leases[m] != leases[i])
    {
      assert m != i ==> w'.reqs[m] == w.reqs[m];
    }
  }

  lemma OtherBucketSame(c: T.Config, w: L.World, leases: seq<nat>, i: nat, w': L.World, lease: nat, b: string, s: T.State)
    requires |leases| == |w.reqs| && Good(c, w, leases, b, s) && G.OnlyAt(w, i, w')
    requires w.reqs[i].bucket != b && w'.reqs[i].bucket != b
    ensures Good(c, w', leases[i := lease], b, s)
  {
    WeighUpdate(w.reqs, i, w'.reqs[i], L.OfActive(b));
    forall m | HadLease(w', b, m)
      ensures m != i && HadLease(w, b, m) && w'.reqs[m] == w.reqs[m]
    {
      assert m != i ==> w'.reqs[m] == w.reqs[m];
    }
  }

  /** The bucket of the request itself, when the segment takes a lease: granted, and maybe given back at once. */
  lemma TakingIsGood(c: T.Config, w: L.World, leases: seq<nat>, m: Move, w': L.World, s: T.State, s': T.State)
    requires |leases| == |w.reqs| && m.i < |w.reqs| && G.OnlyAt(w, m.i, w') && TakesLease(m.e)
    requires L.Local(w.reqs[m.i]) && L.Local(w'.reqs[m.i]) && LeasePasses(w.reqs[m.i], m.e, w'.reqs[m.i])
    requires Good(c, w, leases, w.reqs[m.i].bucket, s)
    requires T.Judge(c, T.Prune(s.bucket, m.now - c.window), w.reqs[m.i].tokens, m.now).Accept?
    requires s' == Settled(c, Granted(c, s, w.reqs[m.i], m), |s.log|, w.reqs[m.i], w'.reqs[m.i])
    ensures Good(c, w', leases[m.i := |s.log|], w.reqs[m.i].bucket, s')
  {
    var i, r := m.i, w.reqs[m.i];
    var r1, s1 := r.(lease := L.Held), Granted(c, s, r, m);
    AcquireGrants(c, s, r.tokens, m.now, s1);
    GrantLinks(c, w, leases, i, r1, r.bucket, s, s1);
    var w1 := w.(reqs := w.reqs[i := r1]);
    SettleLinks(c, w1, leases[i := |s.log|], i, w'.reqs[i], r.bucket, s1, s');
    assert w1.reqs[i := w'.reqs[i]] == w'.reqs;
    SameRequests(c, w1.(reqs := w'.reqs), w', leases[i := |s.log|], r.bucket, s');
  }

  lemma SameRequests(c: T.Config, w: L.World, w': L.World, leases: seq<nat>, b: string, s: T.State)
    requires |leases| == |w.reqs| && w'.reqs == w.reqs && Good(c, w, leases, b, s)
    ensures Good(c, w', leases, b, s)
  {
    assert forall m :: HadLease(w', b, m) <==> HadLease(w, b, m);
  }

  lemma KeepingIsGood(c: T.Config, w: L.World, leases: seq<nat>, i: nat, e: L.Event, w': L.World, s: T.State, s': T.State)
    requires |leases| == |w.reqs| && G.OnlyAt(w, i, w') && !TakesLease(e)
    requires L.Local(w.reqs[i]) && L.Local(w'.reqs[i]) && LeasePasses(w.reqs[i], e, w'.reqs[i])
    requires Good(c, w, leases, w.reqs[i].bucket, s) && s' == Settled(c, s, leases[i], w.reqs[i], w'.reqs[i])
    ensures Good(c, w', leases, w.reqs[i].bucket, s')
  {
    SettleLinks(c, w, leases, i, w'.reqs[i], w.reqs[i].bucket, s, s');
    SameRequests(c, w.(reqs := w'.reqs), w', leases, w.reqs[i].bucket, s');
  }

  /** The bucket of a request that takes no lease, whether it asked in vain or not at all. */
  lemma AskedIsGood(c: T.Config, w: L.World, leases: seq<nat>, m: Move, s: T.State)
    requires |leases| == |w.reqs| && m.i < |w.reqs| && !TakesLease(m.e) && Good(c, w, leases, w.reqs[m.i].bucket, s)
    requires Asks(m) ==> !T.Judge(c, T.Prune(s.bucket, m.now - c.window), w.reqs[m.i].tokens, m.now).Accept?
    ensures Good(c, w, leases, w.reqs[m.i].bucket, Granted(c, s, w.reqs[m.i], m))
  {
    if Asks(m) {
      RefusedAsks(c, s, w.reqs[m.i].tokens, m.now, Granted(c, s, w.reqs[m.i], m));
    }
  }

  lemma OwnBucketIsGood(c: T.Config, j: Joint, m: Move, j': Joint)
    requires Inv(c, j) && CanMove(c, j, m) && !m.e.Arrive? && j' == Step(c, j, m)
    ensures L.Inv(j'.w) && G.OnlyAt(j.w, m.i, j'.w) && |j'.leases| == |j'.w.reqs|
    ensures j'.w.reqs[m.i].bucket == j.w.reqs[m.i].bucket
    ensures Good(c, j'.w, j'.leases, j.w.reqs[m.i].bucket, BucketOf(j', j.w.reqs[m.i].bucket))
  {
    var i, r := m.i, j.w.reqs[m.i];
    var s, s' := BucketOf(j, r.bucket), BucketOf(j', r.bucket);
    SegmentLeasePasses(j.w, i, m.e);
    assert L.Local(r) && Good(c, j.w, j.leases, r.bucket, s);
    if TakesLease(m.e) {
      TakingIsGood(c, j.w, j.leases, m, j'.w, s, s');
    } else {
      AskedIsGood(c, j.w, j.leases, m, s);
      KeepingIsGood(c, j.w, j.leases, i, m.e, j'.w, Granted(c, s, r, m), s');
      assert j.leases[i := j.leases[i]] == j.leases;
    }
  }

  lemma SegmentKeepsInv(c: T.Config, j: Joint, m: Move, j': Joint)
    requires Inv(c, j) && CanMove(c, j, m) && !m.e.Arrive? && j' == Step(c, j, m)
    ensures Inv(c, j')
  {
    OwnBucketIsGood(c, j, m, j');
    forall b
      ensures Good(c, j'.w, j'.leases, b, BucketOf(j', b))
    {
      if b != j.w.reqs[m.i].bucket {
        assert Good(c, j.w, j.leases, b, BucketOf(j, b));
        OtherBucketSame(c, j.w, j.leases, m.i, j'.w, j'.leases[m.i], b, BucketOf(j, b));
      }
    }
  }

  lemma ArriveKeepsInv(c: T.Config, j: Joint, m: Move, j': Joint)
    requires Inv(c, j) && CanMove(c, j, m) && m.e.Arrive? && j' == Step(c, j, m)
    ensures Inv(c, j')
  {
    L.StepKeepsInv(j.w, m.i, m.e, j'.w);
    forall b
      ensures Good(c, j'.w, j'.leases, b, BucketOf(j', b))
    {
      assert Good(c, j.w, j.leases, b, BucketOf(j, b));
      WeighAppend(j.w.reqs, j'.w.reqs[|j.w.reqs|], L.OfActive(b));
      assert forall k :: HadLease(j'.w, b, k) ==> HadLease(j.w, b, k) && j'.w.reqs[k] == j.w.reqs[k] && j'.leases[k] == j.leases[k];
    }
  }

  /** Every segment of every handler keeps leases and grants linked. */
  lemma StepKeepsInv(c: T.Config, j: Joint, m: Move)
    requires Inv(c, j) && CanMove(c, j, m)
    ensures Inv(c, Step(c, j, m))
  {
    if m.e.Arrive? {
      ArriveKeepsInv(c, j, m, Step(c, j, m));
    } else {
      SegmentKeepsInv(c, j, m, Step(c, j, m));
    }
  }

  lemma Begins(c: T.Config)
    ensures Inv(c, Start)
  {
    L.ExecKeepsInv([]);
    assert forall b :: Good(c, Start.w, Start.leases, b, BucketOf(Start, b));
  }

  /** Any moves; one that is not possible when its turn comes is skipped. */
  ghost function Exec(c: T.Config, moves: seq<Move>): (j: Joint)
    ensures Inv(c, j)
  {
    if moves == [] then
      Begins(c);
      Start
    else
      var j, m := Exec(c, moves[..|moves| - 1]), moves[|moves| - 1];
      if CanMove(c, j, m) then
        StepKeepsInv(c, j, m);
        Step(c, j, m)
      else j
  }

  // ---- Main results ----

  /** The handler is bound by the quota: the leases that requests hold are the bucket's `active`, at most max_concurrency. */
  lemma LeasesAreBounded(c: T.Config, moves: seq<Move>, b: string)
    ensures var j := Exec(c, moves);
            Get(j.w.active, b, 0) == Weigh(j.w.reqs, L.OfActive(b)) == BucketOf(j, b).bucket.active <= Max(0, c.maxConcurrency)
  {
    var j := Exec(c, moves);
    assert Good(c, j.w, j.leases, b, BucketOf(j, b));
    assert L.BalancedFor(j.w, b);
  }

  /**
   * What a finished request took from its tenant is settled in the bucket: its grant is released, and its tokens are
   * refunded if and only if it did not overflow and was never dispatched or ended with a status of 500 or more.
   */
  lemma FinishedIsSettled(c: T.Config, moves: seq<Move>, i: nat)
    requires var w := Exec(c, moves).w; i < |w.reqs| && w.reqs[i].phase.Done? && w.reqs[i].lease != L.Never
    ensures var j := Exec(c, moves); var r := j.w.reqs[i]; var log := BucketOf(j, r.bucket).log;
            && j.leases[i] < |log| && log[j.leases[i]].released
            && (log[j.leases[i]].refunded <==> !r.overflowed && (!r.dispatched || r.status >= 500))
  {
    var j := Exec(c, moves);
    var r := j.w.reqs[i];
    assert Good(c, j.w, j.leases, r.bucket, BucketOf(j, r.bucket));
    assert L.Local(r) && HadLease(j.w, r.bucket, i);
  }

  /** The buckets keep their own invariant: each one sees requests for leases in clock order, and releases. */
  ghost predicate Sound(c: T.Config, j: Joint) {
    forall b :: T.Inv(c, BucketOf(j, b))
  }

  lemma SettledIsSound(c: T.Config, s: T.State, lease: nat, r: L.Req, r': L.Req)
    requires T.Inv(c, s)
    ensures T.Inv(c, Settled(c, s, lease, r, r'))
  {
    if r.lease != L.Returned && r'.lease == L.Returned {
      T.ReleaseKeepsInv(c, s, T.Release(lease, r'.refunded));
    }
  }

  lemma GrantedIsSound(c: T.Config, s: T.State, r: L.Req, m: Move)
    requires c.window > 0.0 && T.Inv(c, s) && (Asks(m) ==> m.now >= s.clock)
    ensures T.Inv(c, Granted(c, s, r, m))
  {
    if Asks(m) {
      T.AcquireKeepsInv(c, s, T.Acquire(r.tokens, m.now), Granted(c, s, r, m));
    }
  }

  lemma StepKeepsSound(c: T.Config, j: Joint, m: Move, j': Joint)
    requires c.window > 0.0 && |j.leases| == |j.w.reqs| && CanMove(c, j, m) && Sound(c, j) && j' == Step(c, j, m)
    ensures Sound(c, j')
  {
    forall b
      ensures T.Inv(c, BucketOf(j', b))
    {
      assert T.Inv(c, BucketOf(j, b));
      if !m.e.Arrive? && b == j.w.reqs[m.i].bucket {
        var r, s, w' := j.w.reqs[m.i], BucketOf(j, b), L.Step(j.w, m.i, m.e);
        GrantedIsSound(c, s, r, m);
        SettledIsSound(c, Granted(c, s, r, m), if TakesLease(m.e) then |s.log| else j.leases[m.i], r,
                       if m.i < |w'.reqs| then w'.reqs[m.i] else r);
      }
    }
  }

  lemma {:induction false} ExecKeepsSound(c: T.Config, moves: seq<Move>)
    requires c.window > 0.0
    ensures Sound(c, Exec(c, moves))
  {
    if moves == [] {
      T.ExecKeepsInv(c, 0.0, []);
      assert forall b :: BucketOf(Start, b) == T.Init(0.0);
    } else {
      var front, m := moves[..|moves| - 1], moves[|moves| - 1];
      ExecKeepsSound(c, front);
      if CanMove(c, Exec(c, front), m) {
        StepKeepsSound(c, Exec(c, front), m, Exec(c, moves));
      }
    }
  }

  /** and the tokens of requests granted within any window, and not refunded, fit the budget in every interleaving. */
  lemma TokensFitTheWindow(c: T.Config, moves: seq<Move>, b: string, t: real)
    requires c.window > 0.0 && t >= BucketOf(Exec(c, moves), b).clock
    ensures T.Spent(BucketOf(Exec(c, moves), b).log, t - c.window) <= Max(0, c.budget)
  {
    ExecKeepsSound(c, moves);
    T.StateIsSafe(c, BucketOf(Exec(c, moves), b), t);
  }
}
