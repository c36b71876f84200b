/**
 * What becomes of each request, told by its own events alone (services/gateway/main.py).
 *
 * A story is what a reader of one request's events would write down: how far it got, which status it
 * ended with and whether it took a lease. It knows neither the handler's flags nor the shared
 * counters; both are proved to agree with it in every interleaving.
 */
module Fates {
  import opened Basics
  import L = Lifecycle
  import Q = Quotas
  import T = Tenants

  datatype Fate =
    | Start
    | Waiting                          // for a slot
    | Granted
    | Calling(stream: bool)            // the worker
    | Failed(status: int)              // while a stream was opened
    | Streaming
    | Offered(instead: Option<int>)    // to the overflow destination, instead of a rejection or of this status
    | Relaying                         // the overflow destination streams
    | Refused
    | Gone                             // the client left while it waited
    | Overflowed
    | Ended(status: int)               // with an answer of its worker

  datatype Story = Story(bucket: string, tokens: nat, worker: string, leased: bool, fate: Fate)

  predicate Over(x: Fate) {
    x.Refused? || x.Gone? || x.Overflowed? || x.Ended?
  }

  /** Answers that may go to the overflow destination. */
  predicate MayOverflow(status: int, overflow: bool) {
    overflow ==> status == 503 || status == 529
  }

  function Reply(status: int, overflow: bool): Fate {
    if overflow then Offered(Some(status)) else Ended(status)
  }

  function Rejection(overflow: bool): Fate {
    if overflow then Offered(None) else Refused
  }

  /** The event can be the next of a request that got this far. */
  predicate Follows(x: Fate, e: L.Event) {
    match e
    case Arrive(_, _) => false
    case Refuse => x.Start?
    case Shed(_, _) => x.Start?
    case Place(_, _) => x.Start?
    case Grant => x.Waiting?
    case Resume(_) => x.Granted?
    case QueueReject(_) => x.Waiting?
    case QueueCancel => x.Waiting? || x.Granted?
    case WorkerAnswers(status, overflow) => x == Calling(false) && MayOverflow(status, overflow)
    case OpenFails(_) => x == Calling(true)
    case Closed(overflow) => x.Failed? && MayOverflow(x.status, overflow)
    case Open => x == Calling(true)
    case BodyEnds(_) => x.Streaming? || x.Relaying?
    case Cleanup => x.Streaming? || x.Relaying? || x.Ended? || x.Overflowed?
    case OverflowFails => x.Offered?
    case OverflowAnswers => x.Offered?
    case OverflowOpens => x.Offered?
  }

  /** How far the request is after an event that can follow. */
  function Next(x: Fate, e: L.Event): Fate
    requires Follows(x, e)
  {
    match e
    case Refuse => Refused
    case Shed(_, overflow) => Rejection(overflow)
    case Place(_, _) => Waiting
    case Grant => Granted
    case Resume(stream) => Calling(stream)
    case QueueReject(overflow) => Rejection(overflow)
    case QueueCancel => Gone
    case WorkerAnswers(status, overflow) => Reply(status, overflow)
    case OpenFails(status) => Failed(status)
    case Closed(overflow) => Reply(x.status, overflow)
    case Open => Streaming
    case BodyEnds(status) => if x.Streaming? then Ended(status) else Overflowed
    case Cleanup => if x.Streaming? then Ended(499) else if x.Relaying? then Overflowed else x
    case OverflowFails => if x.instead.Some? then Ended(x.instead.value) else Refused
    case OverflowAnswers => Overflowed
    case OverflowOpens => Relaying
  }

  function Tell(y: Story, e: L.Event): Story {
    if !Follows(y.fate, e) then y
    else
      Story(y.bucket, y.tokens,
            if e.Place? then e.worker else y.worker,
            y.leased || (e.Place? && e.quota) || (e.Shed? && e.quota),
            Next(y.fate, e))
  }

  /** The stories of all requests after these moves, in order of arrival. */
  function Stories(moves: seq<L.Move>): seq<Story> {
    if moves == [] then []
    else
      var told, m := Stories(moves[..|moves| - 1]), moves[|moves| - 1];
      if m.event.Arrive? then told + [Story(m.event.bucket, m.event.tokens, "", false, Start)]
      else if m.request < |told| then told[m.request := Tell(told[m.request], m.event)]
      else told
  }

  // ---- The handler's flags agree with the story ----

  predicate FitsFate(r: L.Req, x: Fate) {
    match x
    case Start => r.phase == L.Fresh
    case Waiting => r.phase == L.Queued && r.ticket == L.Never
    case Granted => r.phase == L.Queued && r.ticket == L.Held
    case Calling(stream) => r.phase == L.Proxying(stream)
    case Failed(status) => r.phase == L.Closing(status)
    case Streaming => r.phase == L.Body
    case Offered(status) => r.phase == L.Overflowing(if status.Some? then L.FinishWith(status.value) else L.RejectLocally)
    case Relaying => r.phase == L.OverflowBody
    case Refused => r.phase == L.Done(false) && !r.dispatched && !r.finished && !r.overflowed
    case Gone => r.phase == L.Done(true) && !r.dispatched
    case Overflowed => r.phase == L.Done(false) && r.overflowed
    case Ended(status) => r.phase == L.Done(false) && r.finished && !r.overflowed && r.status == status
  }

  predicate Fits(r: L.Req, y: Story) {
    && r.bucket == y.bucket && r.tokens == y.tokens && r.worker == y.worker
    && (r.lease != L.Never <==> y.leased) && FitsFate(r, y.fate)
  }

  lemma EarlyStepFits(w: L.World, i: nat, e: L.Event, y: Story)
    requires L.CanStep(w, i, e) && L.BeforeDispatch(e) && !e.Resume? && !e.QueueCancel? && L.Local(w.reqs[i])
    requires Fits(w.reqs[i], y) && Follows(y.fate, e)
    ensures |L.Step(w, i, e).reqs| == |w.reqs| && Fits(L.Step(w, i, e).reqs[i], Tell(y, e))
  {
    match e
    case Refuse =>
    case Shed(quota, overflow) =>
    case Place(quota, worker) =>
    case Grant =>
    case QueueReject(overflow) =>
  }

  lemma LeavingStepFits(w: L.World, i: nat, e: L.Event, y: Story)
    requires L.CanStep(w, i, e) && (e.Resume? || e.QueueCancel?) && L.Local(w.reqs[i])
    requires Fits(w.reqs[i], y) && Follows(y.fate, e)
    ensures |L.Step(w, i, e).reqs| == |w.reqs| && Fits(L.Step(w, i, e).reqs[i], Tell(y, e))
  {
    match e
    case Resume(stream) => assert L.LeaveQueue(w, i).reqs[i] == w.reqs[i].(phase := L.Answered);
    case QueueCancel => assert L.TicketBack(w, i).reqs[i].phase == w.reqs[i].phase;
  }

  lemma WorkerStepFits(w: L.World, i: nat, e: L.Event, y: Story)
    requires L.CanStep(w, i, e) && L.AtWorker(e) && L.Local(w.reqs[i])
    requires Fits(w.reqs[i], y) && Follows(y.fate, e)
    ensures |L.Step(w, i, e).reqs| == |w.reqs| && Fits(L.Step(w, i, e).reqs[i], Tell(y, e))
  {
    match e
    case WorkerAnswers(status, overflow) => assert L.FreeWorker(w, i).reqs[i] == L.Freed(w.reqs[i]);
    case OpenFails(status) => assert L.FreeWorker(w, i).reqs[i] == L.Freed(w.reqs[i]);
    case Closed(overflow) =>
    case Open =>
  }

  lemma StreamEndFits(w: L.World, i: nat, e: L.Event, y: Story)
    requires L.CanStep(w, i, e) && (e.BodyEnds? || e.Cleanup?) && L.Local(w.reqs[i])
    requires Fits(w.reqs[i], y) && y.fate.Streaming?
    ensures |L.Step(w, i, e).reqs| == |w.reqs| && Fits(L.Step(w, i, e).reqs[i], Tell(y, e))
  {
    var status := if e.BodyEnds? then e.status else 499;
    var w1 := L.FreeWorker(w, i);
    var w2 := L.Finish(w1, i, status);
    assert w2.reqs[i] == L.Finished(L.Freed(w.reqs[i]), status);
    assert L.Step(w, i, e) == L.Goto(w2, i, L.Done(false));
  }

  lemma RelayEndFits(w: L.World, i: nat, e: L.Event, y: Story)
    requires L.CanStep(w, i, e) && (e.BodyEnds? || e.Cleanup?) && L.Local(w.reqs[i])
    requires Fits(w.reqs[i], y) && (y.fate.Relaying? || y.fate.Overflowed?) && Follows(y.fate, e)
    ensures |L.Step(w, i, e).reqs| == |w.reqs| && Fits(L.Step(w, i, e).reqs[i], Tell(y, e))
  {
    assert L.Once(w, i).reqs[i] == L.Settled(w.reqs[i]);
  }

  lemma LateCleanupFits(w: L.World, i: nat, y: Story)
    requires L.CanStep(w, i, L.Cleanup) && L.Local(w.reqs[i]) && Fits(w.reqs[i], y) && y.fate.Ended?
    ensures |L.Step(w, i, L.Cleanup).reqs| == |w.reqs| && Fits(L.Step(w, i, L.Cleanup).reqs[i], Tell(y, L.Cleanup))
  {
    assert L.FreeWorker(w, i).reqs[i] == w.reqs[i];
    assert L.Finish(L.FreeWorker(w, i), i, 499).reqs[i] == w.reqs[i];
  }

  lemma EndStepFits(w: L.World, i: nat, e: L.Event, y: Story)
    requires L.CanStep(w, i, e) && (e.BodyEnds? || e.Cleanup?) && L.Local(w.reqs[i])
    requires Fits(w.reqs[i], y) && Follows(y.fate, e)
    ensures |L.Step(w, i, e).reqs| == |w.reqs| && Fits(L.Step(w, i, e).reqs[i], Tell(y, e))
  {
    if y.fate.Streaming? {
      StreamEndFits(w, i, e, y);
    } else if y.fate.Ended? {
      LateCleanupFits(w, i, y);
    } else {
      RelayEndFits(w, i, e, y);
    }
  }

  lemma OverflowFailsFits(w: L.World, i: nat, y: Story)
    requires L.CanStep(w, i, L.OverflowFails) && L.Local(w.reqs[i]) && Fits(w.reqs[i], y) && y.fate.Offered?
    ensures |L.Step(w, i, L.OverflowFails).reqs| == |w.reqs|
    ensures Fits(L.Step(w, i, L.OverflowFails).reqs[i], Tell(y, L.OverflowFails))
  {
    if w.reqs[i].phase.fallback.RejectLocally? {
      assert L.Reject(w, i).reqs[i] == L.Rejected(w.reqs[i]);
    } else {
      var status := w.reqs[i].phase.fallback.status;
      assert L.Finish(w, i, status).reqs[i] == L.Finished(w.reqs[i], status);
    }
  }

  lemma OverflowStepFits(w: L.World, i: nat, e: L.Event, y: Story)
    requires L.CanStep(w, i, e) && (e.OverflowAnswers? || e.OverflowOpens?) && L.Local(w.reqs[i])
    requires Fits(w.reqs[i], y) && Follows(y.fate, e)
    ensures |L.Step(w, i, e).reqs| == |w.reqs| && Fits(L.Step(w, i, e).reqs[i], Tell(y, e))
  {
  }

  /** An event is possible exactly when it can follow in the story. */
  lemma PossibleIff(w: L.World, i: nat, e: L.Event, y: Story)
    requires i < |w.reqs| && !e.Arrive? && L.Local(w.reqs[i]) && Fits(w.reqs[i], y)
    ensures L.CanStep(w, i, e) <==> Follows(y.fate, e)
  {
  }

  lemma StepFits(w: L.World, i: nat, e: L.Event, y: Story)
    requires L.CanStep(w, i, e) && !e.Arrive? && L.Local(w.reqs[i]) && Fits(w.reqs[i], y)
    ensures |L.Step(w, i, e).reqs| == |w.reqs| && Fits(L.Step(w, i, e).reqs[i], Tell(y, e))
  {
    PossibleIff(w, i, e, y);
    if e.Resume? || e.QueueCancel? {
      LeavingStepFits(w, i, e, y);
    } else if L.BeforeDispatch(e) {
      EarlyStepFits(w, i, e, y);
    } else if L.AtWorker(e) {
      WorkerStepFits(w, i, e, y);
    } else if e.BodyEnds? || e.Cleanup? {
      EndStepFits(w, i, e, y);
    } else if e.OverflowFails? {
      OverflowFailsFits(w, i, y);
    } else {
      OverflowStepFits(w, i, e, y);
    }
  }

  predicate AllFit(w: L.World, told: seq<Story>) {
    |told| == |w.reqs| && forall i :: 0 <= i < |told| ==> Fits(w.reqs[i], told[i])
  }

  lemma OthersStay(w: L.World, i: nat, e: L.Event, w': L.World)
    requires L.CanStep(w, i, e) && !e.Arrive? && L.Local(w.reqs[i]) && w' == L.Step(w, i, e)
    ensures w'.reqs == w.reqs[i := w'.reqs[i]]
  {
    if L.BeforeDispatch(e) {
      L.EarlyStepIsFair(w, i, e, w');
    } else {
      L.LateStepIsFair(w, i, e, w');
    }
  }

  lemma {:induction false} StoriesFit(moves: seq<L.Move>)
    ensures AllFit(L.Exec(moves), Stories(moves))
  {
    if moves == [] {
    } else {
      var front, m := moves[..|moves| - 1], moves[|moves| - 1];
      var w, told := L.Exec(front), Stories(front);
      StoriesFit(front);
      L.ExecKeepsInv(front);
      if !m.event.Arrive? && m.request < |told| {
        PossibleIff(w, m.request, m.event, told[m.request]);
        if L.CanStep(w, m.request, m.event) {
          StepFits(w, m.request, m.event, told[m.request]);
          OthersStay(w, m.request, m.event, L.Exec(moves));
        } else {
          assert told[m.request := told[m.request]] == told;
        }
      }
    }
  }

  // ---- Main results ----

  /** What a finished request gave back and was told, by its story. */
  predicate Concluded(r: L.Req, y: Story) {
    && r.lease == (if y.leased then L.Returned else L.Never)
    && (r.refunded <==> y.leased && (y.fate.Refused? || y.fate.Gone? || (y.fate.Ended? && y.fate.status >= 500)))
    && (y.fate.Ended? ==> r.finished && r.status == y.fate.status)
    && (r.overflowed <==> y.fate.Overflowed?)
    && r.answers == (if y.fate.Gone? then 0 else 1)
    && r.ticket != L.Held && (y.fate.Ended? ==> r.dispatched && r.freed && r.ticket == L.Returned)
  }

  /**
   * The outcome of every request follows from its own events, in every interleaving: it is done exactly when its story is
   * over; its lease, if its events took one, is back, with a refund exactly when it was refused, left while waiting, or
   * ended with a status of 500 or more; it was answered with the status of its story, once, or never if the client left.
   */
  lemma OutcomeFollowsStory(moves: seq<L.Move>, i: nat)
    requires i < |L.Exec(moves).reqs|
    ensures |Stories(moves)| == |L.Exec(moves).reqs|
    ensures var r, y := L.Exec(moves).reqs[i], Stories(moves)[i];
            && r.bucket == y.bucket && r.tokens == y.tokens && r.worker == y.worker
            && (r.phase.Done? <==> Over(y.fate))
            && (if Over(y.fate) then Concluded(r, y)
                else r.answers == 0 && r.lease == if y.leased then L.Held else L.Never)
  {
    StoriesFit(moves);
    L.ExecKeepsInv(moves);
    assert Fits(L.Exec(moves).reqs[i], Stories(moves)[i]) && L.Local(L.Exec(moves).reqs[i]);
  }

  function WaitsAt(k: string): Story -> int {
    (y: Story) => if (y.fate.Waiting? || y.fate.Granted?) && y.worker == k then 1 else 0
  }

  function RunsAt(k: string): Story -> int {
    (y: Story) => if (y.fate.Calling? || y.fate.Streaming?) && y.worker == k then 1 else 0
  }

  function TokensAt(k: string): Story -> int {
    (y: Story) => if (y.fate.Calling? || y.fate.Streaming?) && y.worker == k then y.tokens else 0
  }

  function SlotsAt(k: string): Story -> int {
    (y: Story) => if (y.fate.Granted? || y.fate.Calling? || y.fate.Streaming?) && y.worker == k then 1 else 0
  }

  function LeasedFrom(k: string): Story -> int {
    (y: Story) => if y.leased && !Over(y.fate) && y.bucket == k then 1 else 0
  }

  lemma {:induction false} WeighAlike<A, B>(q: seq<A>, f: A -> int, p: seq<B>, g: B -> int)
    requires |q| == |p| && forall i :: 0 <= i < |q| ==> f(q[i]) == g(p[i])
    ensures Weigh(q, f) == Weigh(p, g)
  {
    if q == [] {
    } else {
      WeighAlike(q[..|q| - 1], f, p[..|p| - 1], g);
    }
  }

  lemma SharesFit(r: L.Req, y: Story, k: string)
    requires L.Local(r) && Fits(r, y)
    ensures L.OfPending(k)(r) == WaitsAt(k)(y) && L.OfInflight(k)(r) == RunsAt(k)(y)
    ensures L.OfTokens(k)(r) == TokensAt(k)(y) && L.OfSlots(k)(r) == SlotsAt(k)(y)
    ensures L.OfActive(k)(r) == LeasedFrom(k)(y)
  {
  }

  /** Every shared counter is what the stories add up to: waiting, running and slot-holding requests of a worker, leases of a bucket. */
  lemma CountersFollowStories(moves: seq<L.Move>, k: string)
    ensures var w, told := L.Exec(moves), Stories(moves);
            && Get(w.pending, k, 0) == Weigh(told, WaitsAt(k))
            && Get(w.inflight, k, 0) == Weigh(told, RunsAt(k))
            && Get(w.tokens, k, 0) == Weigh(told, TokensAt(k))
            && Get(w.slots, k, 0) == Weigh(told, SlotsAt(k))
            && Get(w.active, k, 0) == Weigh(told, LeasedFrom(k))
            && |Get(w.recent, k, {})| == Weigh(told, RunsAt(k))
  {
    var w, told := L.Exec(moves), Stories(moves);
    StoriesFit(moves);
    L.ExecKeepsInv(moves);
    L.CountersAreExact(moves, k);
    forall i | 0 <= i < |told|
      ensures L.OfPending(k)(w.reqs[i]) == WaitsAt(k)(told[i]) && L.OfInflight(k)(w.reqs[i]) == RunsAt(k)(told[i])
      ensures L.OfTokens(k)(w.reqs[i]) == TokensAt(k)(told[i]) && L.OfSlots(k)(w.reqs[i]) == SlotsAt(k)(told[i])
      ensures L.OfActive(k)(w.reqs[i]) == LeasedFrom(k)(told[i])
    {
      SharesFit(w.reqs[i], told[i], k);
    }
    WeighAlike(w.reqs, L.OfPending(k), told, WaitsAt(k));
    WeighAlike(w.reqs, L.OfInflight(k), told, RunsAt(k));
    WeighAlike(w.reqs, L.OfTokens(k), told, TokensAt(k));
    WeighAlike(w.reqs, L.OfSlots(k), told, SlotsAt(k));
    WeighAlike(w.reqs, L.OfActive(k), told, LeasedFrom(k));
    OneTokenEach(w, k);
  }

  /** As many dispatch tokens as requests in flight. */
  lemma OneTokenEach(w: L.World, k: string)
    requires L.Tracked(w)
    ensures |Get(w.recent, k, {})| == Weigh(w.reqs, L.OfInflight(k))
  {
    TokensOf(w, k, |w.reqs|);
    assert w.reqs[..|w.reqs|] == w.reqs;
    forall t
      ensures t in Get(w.recent, k, {}) <==> t in InFlightTokens(w, k, |w.reqs|)
    {
      if t in Get(w.recent, k, {}) {
        var i :| 0 <= i < |w.reqs| && L.InFlight(k, w.reqs[i]) && w.reqs[i].token == t;
        var j: nat := i;
        assert j < |w.reqs| && L.InFlight(k, w.reqs[j]) && w.reqs[j].token == t;
      }
    }
    assert Get(w.recent, k, {}) == InFlightTokens(w, k, |w.reqs|);
  }

  function InFlightTokens(w: L.World, k: string, n: nat): set<nat>
    requires n <= |w.reqs|
  {
    set i: nat | i < n && L.InFlight(k, w.reqs[i]) :: w.reqs[i].token
  }

  lemma OneMoreToken(w: L.World, k: string, n: nat)
    requires L.Tracked(w) && n < |w.reqs|
    ensures if L.InFlight(k, w.reqs[n]) then
              InFlightTokens(w, k, n + 1) == InFlightTokens(w, k, n) + {w.reqs[n].token} && w.reqs[n].token !in InFlightTokens(w, k, n)
            else InFlightTokens(w, k, n + 1) == InFlightTokens(w, k, n)
  {
    if L.InFlight(k, w.reqs[n]) {
      forall i: nat | i < n && L.InFlight(k, w.reqs[i])
        ensures w.reqs[i].token != w.reqs[n].token
      {
        L.DifferentTokens(w, k, i, n);
      }
    }
  }

  lemma {:induction false} TokensOf(w: L.World, k: string, n: nat)
    requires L.Tracked(w) && n <= |w.reqs|
    ensures |InFlightTokens(w, k, n)| == Weigh(w.reqs[..n], L.OfInflight(k))
  {
    if n == 0 {
      assert InFlightTokens(w, k, 0) == {};
    } else {
      TokensOf(w, k, n - 1);
      OneMoreToken(w, k, n - 1);
      assert w.reqs[..n][..n - 1] == w.reqs[..n - 1];
    }
  }

  // ---- and so does the tenant quota ----

  /** The moves that were possible when their turn came, without what they asked of the quota. */
  ghost function Played(c: T.Config, moves: seq<Q.Move>): seq<L.Move> {
    if moves == [] then []
    else
      var front, m := moves[..|moves| - 1], moves[|moves| - 1];
      Played(c, front) + if Q.CanMove(c, Q.Exec(c, front), m) then [L.Move(m.i, m.e)] else []
  }

  lemma {:induction false} QuotaPlays(c: T.Config, moves: seq<Q.Move>)
    ensures Q.Exec(c, moves).w == L.Exec(Played(c, moves))
  {
    if moves == [] {
    } else {
      var front, m := moves[..|moves| - 1], moves[|moves| - 1];
      QuotaPlays(c, front);
      if Q.CanMove(c, Q.Exec(c, front), m) {
        var played := Played(c, front);
        assert Played(c, moves)[..|played|] == played;
      } else {
        assert Played(c, moves) == Played(c, front);
      }
    }
  }

  /**
   * What a request took from its tenant follows its story too: a grant of its bucket for each lease its events took,
   * released exactly when the story is over, and refunded exactly when the request was then refused, left while waiting
   * or ended with a status of 500 or more.
   */
  lemma GrantFollowsStory(c: T.Config, moves: seq<Q.Move>, i: nat)
    requires i < |Q.Exec(c, moves).w.reqs|
    ensures |Stories(Played(c, moves))| == |Q.Exec(c, moves).w.reqs| == |Q.Exec(c, moves).leases|
    ensures var j, y := Q.Exec(c, moves), Stories(Played(c, moves))[i];
            var log := Q.BucketOf(j, y.bucket).log;
            y.leased ==>
              && j.leases[i] < |log|
              && (log[j.leases[i]].released <==> Over(y.fate))
              && (log[j.leases[i]].refunded <==> y.fate.Refused? || y.fate.Gone? || (y.fate.Ended? && y.fate.status >= 500))
  {
    var j := Q.Exec(c, moves);
    QuotaPlays(c, moves);
    OutcomeFollowsStory(Played(c, moves), i);
    L.ExecKeepsInv(Played(c, moves));
    var r, y := j.w.reqs[i], Stories(Played(c, moves))[i];
    assert Q.Good(c, j.w, j.leases, r.bucket, Q.BucketOf(j, r.bucket));
    assert L.Local(r);
    if y.leased {
      assert Q.HadLease(j.w, r.bucket, i);
    }
  }
}
