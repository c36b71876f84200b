/**
 * The consumption protocol of infra/inference/kv_transfer/runtime.py. A retrieval is announced as
 * available, waits in a list shared by all threads, and gets its final event from the next forward
 * boundary: consumed if that boundary confirms, failed otherwise.
 *
 * A step is what one thread does between two acquisitions of the lock, or one emitted event.
 */
module Hop {
  import opened Basics

  /** A retrieval that loaded everything it asked for. */
  datatype Item = Item(id: nat, expected: int, tokens: int, bytes: int)

  datatype Boundary = Confirm | Fail(reason: string)

  datatype Event =
    | Available(item: Item)
    | Final(item: Item, cause: Boundary)              // kv_hop: consumed exactly when cause == Confirm
    | Failed(tokens: int, bytes: int, action: string)

  /** Announcements, and what the lock has seen, in order. */
  datatype Mark = Announced(item: Item) | Appended(item: Item) | Swapped(cause: Boundary)

  /** A thread that has swapped the list out and still has `items` to report. `at` is its mark. */
  datatype Batch = Batch(cause: Boundary, items: seq<Item>, at: nat)

  datatype World = World(
    nextId: nat,
    transit: seq<Item>,    // announced, not yet appended
    pending: seq<Item>,
    draining: seq<Batch>,
    log: seq<Event>,
    trace: seq<Mark>)

  const Idle: World := World(0, [], [], [], [], [])

  /** The checks between the engine's answer and the announcement. */
  function Judge(expected: int, tokens: int, bytes: int): (failure: Option<string>)
    ensures failure.None? <==> tokens == expected && tokens > 0 && bytes > 0
    ensures failure == Some("fail_request_partial_retrieval") <==> tokens != expected
    ensures failure == Some("fail_request_empty_retrieval") <==> tokens == expected && (tokens <= 0 || bytes <= 0)
  {
    if tokens != expected then Some("fail_request_partial_retrieval")
    else if tokens <= 0 || bytes <= 0 then Some("fail_request_empty_retrieval")
    else None
  }

  datatype Move =
    | Retrieve(expected: int, tokens: int, bytes: int)
    | Raise(bytes: int)                                // the engine or the synchronisation raised
    | Append(k: nat)                                   // the k-th announced retrieval takes the lock
    | Swap(cause: Boundary)                               // begin_forward and fail_forward, or confirm
    | Report(k: nat)                                   // the k-th draining thread emits its next event

  predicate CanMove(w: World, m: Move) {
    match m
    case Append(k) => k < |w.transit|
    case Report(k) => k < |w.draining| && w.draining[k].items != []
    case Retrieve(_, _, _) => true
    case Raise(_) => true
    case Swap(_) => true
  }

  function Retrieved(w: World, expected: int, tokens: int, bytes: int): World {
    var failure := Judge(expected, tokens, bytes);
    if failure.Some? then w.(log := w.log + [Failed(tokens, bytes, failure.value)])
    else
      var item := Item(w.nextId, expected, tokens, bytes);
      w.(nextId := w.nextId + 1, transit := w.transit + [item], log := w.log + [Available(item)],
         trace := w.trace + [Announced(item)])
  }

  function Appends(w: World, k: nat): World
    requires k < |w.transit|
  {
    w.(transit := Without(w.transit, k), pending := w.pending + [w.transit[k]],
       trace := w.trace + [Appended(w.transit[k])])
  }

  function Swaps(w: World, cause: Boundary): World {
    w.(pending := [], draining := w.draining + [Batch(cause, w.pending, |w.trace|)], trace := w.trace + [Swapped(cause)])
  }

  function Reports(w: World, k: nat): World
    requires k < |w.draining| && w.draining[k].items != []
  {
    var b := w.draining[k];
    w.(draining := w.draining[k := b.(items := b.items[1..])], log := w.log + [Final(b.items[0], b.cause)])
  }

  /** A move that cannot be made changes nothing. */
  function Step(w: World, m: Move): World {
    if !CanMove(w, m) then w
    else
      match m
      case Retrieve(expected, tokens, bytes) => Retrieved(w, expected, tokens, bytes)
      case Raise(bytes) => w.(log := w.log + [Failed(0, bytes, "fail_request")])
      case Append(k) => Appends(w, k)
      case Swap(cause) => Swaps(w, cause)
      case Report(k) => Reports(w, k)
  }

  function Exec(w: World, run: seq<Move>): World {
    if run == [] then w else Step(Exec(w, run[..|run| - 1]), run[|run| - 1])
  }

  // ---- Conservation, for any way of picking retrievals ----

  function AvailableIn(p: Item -> bool): Event -> bool {
    (e: Event) => e.Available? && p(e.item)
  }

  function FinalIn(p: Item -> bool): Event -> bool {
    (e: Event) => e.Final? && p(e.item)
  }

  function InBatch(p: Item -> bool): Batch -> int {
    (b: Batch) => Count(b.items, p)
  }

  /** Announced retrievals are in transit, pending, being reported, or have their final event. */
  predicate Conserved(w: World, p: Item -> bool) {
    Count(w.log, AvailableIn(p)) ==
    Count(w.transit, p) + Count(w.pending, p) + Weigh(w.draining, InBatch(p)) + Count(w.log, FinalIn(p))
  }

  lemma CountAppend<T>(q: seq<T>, x: T, f: T -> bool)
    ensures Count(q + [x], f) == Count(q, f) + (if f(x) then 1 else 0)
  {
    assert (q + [x])[..|q|] == q;
  }

  lemma CountTail<T>(q: seq<T>, f: T -> bool)
    requires q != []
    ensures Count(q, f) == (if f(q[0]) then 1 else 0) + Count(q[1..], f)
  {
    assert Without(q, 0) == q[1..];
    CountWithout(q, 0, f);
  }

  lemma StepConserves(w: World, m: Move, p: Item -> bool)
    requires Conserved(w, p)
    ensures Conserved(Step(w, m), p)
  {
    if CanMove(w, m) {
      match m
      case Retrieve(expected, tokens, bytes) => RetrieveConserves(w, expected, tokens, bytes, p);
      case Raise(bytes) => SilentEvent(w.log, Failed(0, bytes, "fail_request"), p);
      case Append(k) =>
        CountWithout(w.transit, k, p);
        CountAppend(w.pending, w.transit[k], p);
      case Swap(cause) => WeighAppend(w.draining, Batch(cause, w.pending, |w.trace|), InBatch(p));
      case Report(k) => ReportConserves(w, k, p);
    }
  }

  lemma SilentEvent(log: seq<Event>, e: Event, p: Item -> bool)
    requires e.Failed?
    ensures Count(log + [e], AvailableIn(p)) == Count(log, AvailableIn(p))
    ensures Count(log + [e], FinalIn(p)) == Count(log, FinalIn(p))
  {
    CountAppend(log, e, AvailableIn(p));
    CountAppend(log, e, FinalIn(p));
  }

  lemma RetrieveConserves(w: World, expected: int, tokens: int, bytes: int, p: Item -> bool)
    requires Conserved(w, p)
    ensures Conserved(Retrieved(w, expected, tokens, bytes), p)
  {
    var failure := Judge(expected, tokens, bytes);
    if failure.Some? {
      SilentEvent(w.log, Failed(tokens, bytes, failure.value), p);
    } else {
      var item := Item(w.nextId, expected, tokens, bytes);
      CountAppend(w.transit, item, p);
      CountAppend(w.log, Available(item), AvailableIn(p));
      CountAppend(w.log, Available(item), FinalIn(p));
    }
  }

  lemma ReportConserves(w: World, k: nat, p: Item -> bool)
    requires k < |w.draining| && w.draining[k].items != [] && Conserved(w, p)
    ensures Conserved(Reports(w, k), p)
  {
    var b := w.draining[k];
    WeighUpdate(w.draining, k, b.(items := b.items[1..]), InBatch(p));
    CountTail(b.items, p);
    CountAppend(w.log, Final(b.items[0], b.cause), AvailableIn(p));
    CountAppend(w.log, Final(b.items[0], b.cause), FinalIn(p));
  }

  lemma {:induction false} ExecConserves(run: seq<Move>, p: Item -> bool)
    ensures Conserved(Exec(Idle, run), p)
  {
    if run == [] {
    } else {
      ExecConserves(run[..|run| - 1], p);
      StepConserves(Exec(Idle, run[..|run| - 1]), run[|run| - 1], p);
    }
  }

  // ---- Order of boundaries ----

  /** The first boundary after the retrieval entered the list is the one at `at`. */
  predicate FirstBoundary(trace: seq<Mark>, item: Item, at: nat) {
    && at < |trace| && trace[at].Swapped?
    && exists i :: 0 <= i < at && trace[i] == Appended(item) && NoSwap(trace, i + 1, at)
  }

  predicate NoSwap(trace: seq<Mark>, from: nat, to: nat)
    requires to <= |trace|
  {
    forall j :: from <= j < to ==> !trace[j].Swapped?
  }

  /** Entered the list and no boundary since. */
  predicate StillWaiting(trace: seq<Mark>, item: Item) {
    exists i :: 0 <= i < |trace| && trace[i] == Appended(item) && NoSwap(trace, i + 1, |trace|)
  }

  predicate Loaded(item: Item) {
    item.tokens == item.expected && item.tokens > 0 && item.bytes > 0
  }

  ghost predicate Explained(trace: seq<Mark>, item: Item, cause: Boundary) {
    exists at: nat :: FirstBoundary(trace, item, at) && trace[at].cause == cause
  }

  /** Everything a thread has still to report was swapped out at its own boundary, the first one it met. */
  predicate Owed(trace: seq<Mark>, b: Batch) {
    forall i :: 0 <= i < |b.items| ==>
      Loaded(b.items[i]) && FirstBoundary(trace, b.items[i], b.at) && trace[b.at].cause == b.cause
  }

  ghost predicate Inv(w: World) {
    && (forall i :: 0 <= i < |w.transit| ==> Loaded(w.transit[i]) && w.transit[i].id < w.nextId)
    && (forall i :: 0 <= i < |w.pending| ==> Loaded(w.pending[i]) && StillWaiting(w.trace, w.pending[i]))
    && (forall i :: 0 <= i < |w.draining| ==> Owed(w.trace, w.draining[i]))
    && (forall i :: 0 <= i < |w.log| && w.log[i].Final? ==>
          Loaded(w.log[i].item) && Explained(w.trace, w.log[i].item, w.log[i].cause))
    && (forall i :: 0 <= i < |w.log| && w.log[i].Available? ==> w.log[i].item.id < w.nextId)
    && (forall i, j :: 0 <= i < j < |w.log| && w.log[i].Available? && w.log[j].Available? ==>
          w.log[i].item.id != w.log[j].item.id)
    && (forall i, j :: 0 <= i < j < |w.trace| && w.trace[i].Appended? && w.trace[j].Appended? ==>
          w.trace[i].item.id != w.trace[j].item.id)
    && (forall i, j :: 0 <= i < j < |w.transit| ==> w.transit[i].id != w.transit[j].id)
    && (forall i, j :: 0 <= i < |w.transit| && 0 <= j < |w.trace| && w.trace[j].Appended? ==>
          w.transit[i].id != w.trace[j].item.id)
    && (forall i :: 0 <= i < |w.trace| && w.trace[i].Appended? ==> w.trace[i].item.id < w.nextId)
  }

  lemma LaterMark(trace: seq<Mark>, m: Mark, item: Item)
    ensures forall at: nat :: FirstBoundary(trace, item, at) ==> FirstBoundary(trace + [m], item, at)
    ensures !m.Swapped? && StillWaiting(trace, item) ==> StillWaiting(trace + [m], item)
    ensures m == Appended(item) ==> StillWaiting(trace + [m], item)
    ensures m.Swapped? && StillWaiting(trace, item) ==> FirstBoundary(trace + [m], item, |trace|)
  {
    var t := trace + [m];
    assert forall i :: 0 <= i < |trace| ==> t[i] == trace[i];
    if m == Appended(item) {
      assert t[|trace|] == m && NoSwap(t, |trace| + 1, |t|);
    }
    forall at: nat | FirstBoundary(trace, item, at)
      ensures FirstBoundary(t, item, at)
    {
      var i :| 0 <= i < at && trace[i] == Appended(item) && NoSwap(trace, i + 1, at);
      assert t[i] == Appended(item) && NoSwap(t, i + 1, at);
    }
    if StillWaiting(trace, item) {
      var i :| 0 <= i < |trace| && trace[i] == Appended(item) && NoSwap(trace, i + 1, |trace|);
      assert t[i] == Appended(item) && NoSwap(t, i + 1, |trace|);
      if !m.Swapped? {
        assert NoSwap(t, i + 1, |t|);
      }
    }
  }

  /** A mark that is not a boundary ends nobody's wait. */
  lemma WaitsGoOn(w: World, m: Mark)
    requires Inv(w) && !m.Swapped?
    ensures forall i :: 0 <= i < |w.pending| ==> StillWaiting(w.trace + [m], w.pending[i])
    ensures forall i :: 0 <= i < |w.draining| ==> Owed(w.trace + [m], w.draining[i])
    ensures m.Appended? ==> StillWaiting(w.trace + [m], m.item)
  {
    forall i | 0 <= i < |w.pending|
      ensures StillWaiting(w.trace + [m], w.pending[i])
    {
      LaterMark(w.trace, m, w.pending[i]);
    }
    forall i | 0 <= i < |w.draining|
      ensures Owed(w.trace + [m], w.draining[i])
    {
      StaysOwed(w.trace, m, w.draining[i]);
    }
    if m.Appended? {
      LaterMark(w.trace, m, m.item);
    }
  }

  lemma AnnounceKeepsInv(w: World, item: Item)
    requires Inv(w) && item.id == w.nextId && Loaded(item)
    ensures Inv(w.(nextId := w.nextId + 1, transit := w.transit + [item], log := w.log + [Available(item)],
                   trace := w.trace + [Announced(item)]))
  {
    WaitsGoOn(w, Announced(item));
    LogStaysExplained(w, Announced(item));
  }

  lemma FailureKeepsInv(w: World, e: Event)
    requires Inv(w) && e.Failed?
    ensures Inv(w.(log := w.log + [e]))
  {
  }

  lemma RetrieveKeepsInv(w: World, expected: int, tokens: int, bytes: int)
    requires Inv(w)
    ensures Inv(Retrieved(w, expected, tokens, bytes))
  {
    var failure := Judge(expected, tokens, bytes);
    if failure.None? {
      AnnounceKeepsInv(w, Item(w.nextId, expected, tokens, bytes));
    } else {
      FailureKeepsInv(w, Failed(tokens, bytes, failure.value));
    }
  }

  lemma AppendKeepsInv(w: World, k: nat)
    requires Inv(w) && k < |w.transit|
    ensures Inv(Appends(w, k))
  {
    var w', m := Appends(w, k), Appended(w.transit[k]);
    assert forall i :: 0 <= i < |w'.transit| ==> w'.transit[i] == if i < k then w.transit[i] else w.transit[i + 1];
    WaitsGoOn(w, m);
    LogStaysExplained(w, m);
  }

  lemma StaysOwed(trace: seq<Mark>, m: Mark, b: Batch)
    requires Owed(trace, b)
    ensures Owed(trace + [m], b)
  {
    forall i | 0 <= i < |b.items|
      ensures FirstBoundary(trace + [m], b.items[i], b.at) && (trace + [m])[b.at].cause == b.cause
    {
      LaterMark(trace, m, b.items[i]);
      assert (trace + [m])[b.at] == trace[b.at];
    }
  }

  /** Final events stay explained when the lock is taken again. */
  lemma LogStaysExplained(w: World, m: Mark)
    requires Inv(w)
    ensures forall i :: 0 <= i < |w.log| && w.log[i].Final? ==> Explained(w.trace + [m], w.log[i].item, w.log[i].cause)
  {
    forall i | 0 <= i < |w.log| && w.log[i].Final?
      ensures Explained(w.trace + [m], w.log[i].item, w.log[i].cause)
    {
      var at: nat :| FirstBoundary(w.trace, w.log[i].item, at) && w.trace[at].cause == w.log[i].cause;
      LaterMark(w.trace, m, w.log[i].item);
      assert (w.trace + [m])[at] == w.trace[at];
    }
  }

  lemma SwapKeepsInv(w: World, cause: Boundary)
    requires Inv(w)
    ensures Inv(Swaps(w, cause))
  {
    var w' := Swaps(w, cause);
    forall x: Item
      ensures StillWaiting(w.trace, x) ==> FirstBoundary(w'.trace, x, |w.trace|)
    {
      LaterMark(w.trace, Swapped(cause), x);
    }
    forall i | 0 <= i < |w.draining|
      ensures Owed(w'.trace, w.draining[i])
    {
      StaysOwed(w.trace, Swapped(cause), w.draining[i]);
    }
    assert Owed(w'.trace, Batch(cause, w.pending, |w.trace|));
    LogStaysExplained(w, Swapped(cause));
  }

  lemma ReportKeepsInv(w: World, k: nat)
    requires Inv(w) && k < |w.draining| && w.draining[k].items != []
    ensures Inv(Reports(w, k))
  {
    var w', b := Reports(w, k), w.draining[k];
    assert FirstBoundary(w.trace, b.items[0], b.at) && w.trace[b.at].cause == b.cause;
    assert Explained(w.trace, b.items[0], b.cause);
    assert forall i :: 0 <= i < |b.items[1..]| ==> b.items[1..][i] == b.items[i + 1];
  }

  lemma StepKeepsInv(w: World, m: Move)
    requires Inv(w)
    ensures Inv(Step(w, m))
  {
    if CanMove(w, m) {
      match m
      case Retrieve(expected, tokens, bytes) => RetrieveKeepsInv(w, expected, tokens, bytes);
      case Raise(bytes) =>
      case Append(k) => AppendKeepsInv(w, k);
      case Swap(cause) => SwapKeepsInv(w, cause);
      case Report(k) => ReportKeepsInv(w, k);
    }
  }

  lemma {:induction false} ExecKeepsInv(run: seq<Move>)
    ensures Inv(Exec(Idle, run))
  {
    if run == [] {
    } else {
      ExecKeepsInv(run[..|run| - 1]);
      StepKeepsInv(Exec(Idle, run[..|run| - 1]), run[|run| - 1]);
    }
  }

  // ---- Main results ----

  function Is(id: nat): Item -> bool {
    (x: Item) => x.id == id
  }

  function Any(): Item -> bool {
    (x: Item) => true
  }

  function Decided(consumed: bool): Event -> bool {
    (e: Event) => e.Final? && (e.cause == Confirm <==> consumed)
  }

  lemma {:induction false} AtMostOne(log: seq<Event>, id: nat)
    requires forall i, j :: 0 <= i < j < |log| && log[i].Available? && log[j].Available? ==> log[i].item.id != log[j].item.id
    ensures Count(log, AvailableIn(Is(id))) <= 1
  {
    if log == [] {
    } else {
      var front, last := log[..|log| - 1], log[|log| - 1];
      AtMostOne(front, id);
      if last.Available? && last.item.id == id {
        CountZero(front, AvailableIn(Is(id)));
      }
    }
  }

  lemma {:induction false} FinalsAreDecided(log: seq<Event>)
    ensures Count(log, FinalIn(Any())) == Count(log, Decided(true)) + Count(log, Decided(false))
  {
    if log == [] {
    } else {
      FinalsAreDecided(log[..|log| - 1]);
    }
  }

  lemma {:induction false} CountAny(q: seq<Item>)
    ensures Count(q, Any()) == |q|
  {
    if q == [] {
    } else {
      CountAny(q[..|q| - 1]);
    }
  }

  function Left(): Batch -> int {
    (b: Batch) => |b.items|
  }

  lemma {:induction false} BatchesAny(q: seq<Batch>)
    ensures Weigh(q, InBatch(Any())) == Weigh(q, Left())
  {
    if q == [] {
    } else {
      BatchesAny(q[..|q| - 1]);
      CountAny(q[|q| - 1].items);
    }
  }

  /** In every run: announced = consumed + failed + waiting + on their way; and each retrieval has at most one final event. */
  lemma EveryRetrievalIsAccounted(run: seq<Move>, id: nat)
    ensures var w := Exec(Idle, run);
            && Count(w.log, AvailableIn(Any())) ==
               Count(w.log, Decided(true)) + Count(w.log, Decided(false))
               + |w.pending| + |w.transit| + Weigh(w.draining, Left())
            && Count(w.log, FinalIn(Is(id))) <= Count(w.log, AvailableIn(Is(id))) <= 1
  {
    var w := Exec(Idle, run);
    ExecConserves(run, Any());
    FinalsAreDecided(w.log);
    CountAny(w.pending);
    CountAny(w.transit);
    BatchesAny(w.draining);
    ExecConserves(run, Is(id));
    WeighNonNegative(w.draining, InBatch(Is(id)));
    ExecKeepsInv(run);
    AtMostOne(w.log, id);
  }

  lemma BoundaryIsUnique(w: World, item: Item, a: nat, b: nat)
    requires Inv(w) && FirstBoundary(w.trace, item, a) && FirstBoundary(w.trace, item, b)
    ensures a == b
  {
    var i :| 0 <= i < a && w.trace[i] == Appended(item) && NoSwap(w.trace, i + 1, a);
    var j :| 0 <= j < b && w.trace[j] == Appended(item) && NoSwap(w.trace, j + 1, b);
    assert i == j;
  }

  /**
   * A final event says consumed if and only if the first boundary after the retrieval entered the list is a
   * confirmation: no begin_forward or fail_forward came in between. Its tokens are all that were asked for,
   * and its bytes are positive.
   */
  lemma ConsumedIffConfirmedFirst(run: seq<Move>, e: Event, at: nat)
    requires e in Exec(Idle, run).log && e.Final?
    requires FirstBoundary(Exec(Idle, run).trace, e.item, at)
    ensures e.cause == Exec(Idle, run).trace[at].cause
    ensures Loaded(e.item)
  {
    var w := Exec(Idle, run);
    ExecKeepsInv(run);
    var k :| 0 <= k < |w.log| && w.log[k] == e;
    var b: nat :| FirstBoundary(w.trace, e.item, b) && w.trace[b].cause == e.cause;
    BoundaryIsUnique(w, e.item, at, b);
  }

  /** and every final event has such a boundary. */
  lemma FinalsFollowABoundary(run: seq<Move>, e: Event)
    requires e in Exec(Idle, run).log && e.Final?
    ensures Explained(Exec(Idle, run).trace, e.item, e.cause)
  {
    ExecKeepsInv(run);
  }

  // ---- From the announcement on ----

  /** `item` was announced before position `to`. */
  predicate AnnouncedBefore(trace: seq<Mark>, item: Item, to: nat)
    requires to <= |trace|
  {
    exists a :: 0 <= a < to && trace[a] == Announced(item)
  }

  /** Every retrieval is announced once, before it enters the list. */
  predicate AnnouncedFirst(w: World) {
    && (forall i :: 0 <= i < |w.transit| ==> AnnouncedBefore(w.trace, w.transit[i], |w.trace|))
    && (forall p :: 0 <= p < |w.trace| && w.trace[p].Appended? ==> AnnouncedBefore(w.trace, w.trace[p].item, p))
    && (forall i :: 0 <= i < |w.trace| && w.trace[i].Announced? ==> w.trace[i].item.id < w.nextId)
    && (forall i, j :: 0 <= i < j < |w.trace| && w.trace[i].Announced? && w.trace[j].Announced? ==>
          w.trace[i].item.id != w.trace[j].item.id)
  }

  lemma StaysAnnounced(trace: seq<Mark>, m: Mark, item: Item, to: nat)
    requires to <= |trace| && AnnouncedBefore(trace, item, to)
    ensures AnnouncedBefore(trace + [m], item, to) && AnnouncedBefore(trace + [m], item, |trace| + 1)
  {
    var a :| 0 <= a < to && trace[a] == Announced(item);
    assert (trace + [m])[a] == Announced(item);
  }

  /** One more mark: an announcement with a new id, an announced retrieval entering the list, or a boundary. */
  lemma MarkKeepsAnnounced(w: World, m: Mark, w': World)
    requires AnnouncedFirst(w) && w'.trace == w.trace + [m] && w'.nextId >= w.nextId
    requires m.Announced? ==> m.item.id == w.nextId < w'.nextId
    requires m.Appended? ==> AnnouncedBefore(w.trace, m.item, |w.trace|)
    requires forall i :: 0 <= i < |w'.transit| ==> w'.transit[i] in w.transit || m == Announced(w'.transit[i])
    ensures AnnouncedFirst(w')
  {
    forall i | 0 <= i < |w'.transit|
      ensures AnnouncedBefore(w'.trace, w'.transit[i], |w'.trace|)
    {
      if w'.transit[i] in w.transit {
        StaysAnnounced(w.trace, m, w'.transit[i], |w.trace|);
      } else {
        assert w'.trace[|w.trace|] == m;
      }
    }
    forall p | 0 <= p < |w'.trace| && w'.trace[p].Appended?
      ensures AnnouncedBefore(w'.trace, w'.trace[p].item, p)
    {
      StaysAnnounced(w.trace, m, w'.trace[p].item, p);
    }
  }

  lemma StepKeepsAnnounced(w: World, m: Move)
    requires AnnouncedFirst(w)
    ensures AnnouncedFirst(Step(w, m))
  {
    var w' := Step(w, m);
    if CanMove(w, m) {
      match m
      case Retrieve(expected, tokens, bytes) =>
        if Judge(expected, tokens, bytes).None? {
          MarkKeepsAnnounced(w, Announced(Item(w.nextId, expected, tokens, bytes)), w');
        }
      case Raise(bytes) =>
      case Append(k) =>
        assert forall i :: 0 <= i < |w'.transit| ==> w'.transit[i] == w.transit[if i < k then i else i + 1];
        MarkKeepsAnnounced(w, Appended(w.transit[k]), w');
      case Swap(cause) => MarkKeepsAnnounced(w, Swapped(cause), w');
      case Report(k) =>
    }
  }

  lemma {:induction false} ExecKeepsAnnounced(run: seq<Move>)
    ensures AnnouncedFirst(Exec(Idle, run))
  {
    if run == [] {
    } else {
      ExecKeepsAnnounced(run[..|run| - 1]);
      StepKeepsAnnounced(Exec(Idle, run[..|run| - 1]), run[|run| - 1]);
    }
  }

  predicate FailingSwap(trace: seq<Mark>, j: nat) {
    j < |trace| && trace[j].Swapped? && trace[j].cause != Confirm
  }

  /** Some boundary between positions `from` and `to` failed what it found. */
  predicate FailedBetween(trace: seq<Mark>, from: nat, to: nat) {
    exists j: nat :: from < j < to && FailingSwap(trace, j)
  }

  /**
   * Of a retrieval announced at `a` that entered the list at `p`, every boundary between its announcement and its
   * final event's boundary `at` fell before `p`. So it is consumed in spite of a failing boundary since its
   * announcement exactly when it is confirmed and such a boundary fell between announcement and entry.
   */
  lemma ConsumedDespiteFailureIff(run: seq<Move>, e: Event, a: nat, p: nat, at: nat)
    requires var w := Exec(Idle, run);
             && e in w.log && e.Final? && FirstBoundary(w.trace, e.item, at)
             && a < |w.trace| && w.trace[a] == Announced(e.item)
             && p < |w.trace| && w.trace[p] == Appended(e.item)
    ensures a < p < at
    ensures var trace := Exec(Idle, run).trace;
            && NoSwap(trace, p, at)
            && (e.cause == Confirm && FailedBetween(trace, a, at) <==> trace[at].cause == Confirm && FailedBetween(trace, a, p))
  {
    var w := Exec(Idle, run);
    ExecKeepsInv(run);
    ExecKeepsAnnounced(run);
    ConsumedIffConfirmedFirst(run, e, at);
    var i :| 0 <= i < at && w.trace[i] == Appended(e.item) && NoSwap(w.trace, i + 1, at);
    assert i == p;
    assert AnnouncedBefore(w.trace, e.item, p);
    var b :| 0 <= b < p && w.trace[b] == Announced(e.item);
    assert a == b;
    SameFailures(w.trace, a, p, at);
  }

  lemma SameFailures(trace: seq<Mark>, a: nat, p: nat, at: nat)
    requires a < p < at < |trace| && !trace[p].Swapped? && NoSwap(trace, p + 1, at)
    ensures NoSwap(trace, p, at) && (FailedBetween(trace, a, at) <==> FailedBetween(trace, a, p))
  {
    if FailedBetween(trace, a, at) {
      var j: nat :| a < j < at && FailingSwap(trace, j);
      assert j < p;
    }
    if FailedBetween(trace, a, p) {
      var j: nat :| a < j < p && FailingSwap(trace, j);
      assert a < j < at;
    }
  }

  lemma ExecOne(w: World, run: seq<Move>, m: Move)
    ensures Exec(w, run + [m]) == Step(Exec(w, run), m)
  {
    assert (run + [m])[..|run|] == run;
  }

  /** The gap, step by step: announced, a failing boundary, entry, a confirmation, the report. */
  lemma GapSteps(item: Item, w1: World, w2: World, w3: World, w4: World, reason: string)
    requires item == Item(0, 1, 1, 1)
    requires w1 == World(1, [item], [], [], [Available(item)], [Announced(item)])
    requires w2 == w1.(draining := [Batch(Fail(reason), [], 1)], trace := w1.trace + [Swapped(Fail(reason))])
    requires w3 == w2.(transit := [], pending := [item], trace := w2.trace + [Appended(item)])
    requires w4 == w3.(pending := [], draining := w3.draining + [Batch(Confirm, [item], 3)], trace := w3.trace + [Swapped(Confirm)])
    ensures Step(Idle, Retrieve(1, 1, 1)) == w1 && Step(w1, Swap(Fail(reason))) == w2
    ensures Step(w2, Append(0)) == w3 && Step(w3, Swap(Confirm)) == w4
    ensures Step(w4, Report(1)).log == [Available(item), Final(item, Confirm)] && Step(w4, Report(1)).trace == w4.trace
  {
    assert Without([item], 0) == [];
    assert w4.draining[1] == Batch(Confirm, [item], 3);
  }

  /** The gap is real: a boundary that fails everything it finds misses a retrieval that is announced and not yet in the list. */
  lemma BoundaryMissesAnnounced(reason: string)
    ensures var run := [Retrieve(1, 1, 1), Swap(Fail(reason)), Append(0), Swap(Confirm), Report(1)];
            var item := Item(0, 1, 1, 1);
            && Exec(Idle, run).log == [Available(item), Final(item, Confirm)]
            && Exec(Idle, run).trace == [Announced(item), Swapped(Fail(reason)), Appended(item), Swapped(Confirm)]
  {
    var item := Item(0, 1, 1, 1);
    var w1 := World(1, [item], [], [], [Available(item)], [Announced(item)]);
    var w2 := w1.(draining := [Batch(Fail(reason), [], 1)], trace := w1.trace + [Swapped(Fail(reason))]);
    var w3 := w2.(transit := [], pending := [item], trace := w2.trace + [Appended(item)]);
    var w4 := w3.(pending := [], draining := w3.draining + [Batch(Confirm, [item], 3)], trace := w3.trace + [Swapped(Confirm)]);
    GapSteps(item, w1, w2, w3, w4, reason);
    FiveSteps(Retrieve(1, 1, 1), Swap(Fail(reason)), Append(0), Swap(Confirm), Report(1));
  }

  lemma FiveSteps(a: Move, b: Move, c: Move, d: Move, e: Move)
    ensures Exec(Idle, [a, b, c, d, e]) == Step(Step(Step(Step(Step(Idle, a), b), c), d), e)
  {
    var r0: seq<Move> := [];
    var r1, r2, r3, r4 := r0 + [a], r0 + [a] + [b], r0 + [a] + [b] + [c], r0 + [a] + [b] + [c] + [d];
    ExecOne(Idle, r0, a);
    ExecOne(Idle, r1, b);
    ExecOne(Idle, r2, c);
    ExecOne(Idle, r3, d);
    ExecOne(Idle, r4, e);
    FiveInARow(a, b, c, d, e);
  }

  lemma FiveInARow(a: Move, b: Move, c: Move, d: Move, e: Move)
    ensures [] + [a] + [b] + [c] + [d] + [e] == [a, b, c, d, e]
  {
  }

  // ---- Runs in which every announcement is followed at once by its entry ----

  datatype Call =
    | Load(expected: int, tokens: int, bytes: int)   // a retrieve call, whole
    | Fault(bytes: int)
    | Forward(cause: Boundary)
    | Emit(k: nat)

  function CallStep(w: World, call: Call): World {
    match call
    case Load(expected, tokens, bytes) =>
      var w' := Step(w, Retrieve(expected, tokens, bytes));
      if Judge(expected, tokens, bytes).None? then Step(w', Append(|w.transit|)) else w'
    case Fault(bytes) => Step(w, Raise(bytes))
    case Forward(cause) => Step(w, Swap(cause))
    case Emit(k) => Step(w, Report(k))
  }

  function CallExec(calls: seq<Call>): World {
    if calls == [] then Idle else CallStep(CallExec(calls[..|calls| - 1]), calls[|calls| - 1])
  }

  /** The moves that a sequence of calls makes. */
  function MovesOf(calls: seq<Call>): seq<Move> {
    if calls == [] then []
    else
      var front := MovesOf(calls[..|calls| - 1]);
      match calls[|calls| - 1]
      case Load(expected, tokens, bytes) =>
        var one := front + [Retrieve(expected, tokens, bytes)];
        if Judge(expected, tokens, bytes).None? then one + [Append(0)] else one
      case Fault(bytes) => front + [Raise(bytes)]
      case Forward(cause) => front + [Swap(cause)]
      case Emit(k) => front + [Report(k)]
  }

  /** Each announcement is followed by its entry, and each entry follows its announcement. */
  predicate Prompt(trace: seq<Mark>) {
    && (forall i :: 0 <= i < |trace| && trace[i].Announced? ==> i + 1 < |trace| && trace[i + 1] == Appended(trace[i].item))
    && (forall i :: 0 <= i < |trace| && trace[i].Appended? ==> i > 0 && trace[i - 1] == Announced(trace[i].item))
  }

  lemma CallKeepsPrompt(w: World, call: Call)
    requires w.transit == [] && Prompt(w.trace)
    ensures CallStep(w, call).transit == [] && Prompt(CallStep(w, call).trace)
  {
    if call.Load? && Judge(call.expected, call.tokens, call.bytes).None? {
      var item := Item(w.nextId, call.expected, call.tokens, call.bytes);
      assert Without([item], 0) == [];
      assert CallStep(w, call).trace == w.trace + [Announced(item)] + [Appended(item)];
    }
  }

  lemma {:induction false} CallsArePrompt(calls: seq<Call>)
    ensures CallExec(calls) == Exec(Idle, MovesOf(calls))
    ensures CallExec(calls).transit == [] && Prompt(CallExec(calls).trace)
  {
    if calls == [] {
    } else {
      var front, call := calls[..|calls| - 1], calls[|calls| - 1];
      CallsArePrompt(front);
      CallKeepsPrompt(CallExec(front), call);
      var run := MovesOf(front);
      match call
      case Load(expected, tokens, bytes) =>
        ExecOne(Idle, run, Retrieve(expected, tokens, bytes));
        ExecOne(Idle, run + [Retrieve(expected, tokens, bytes)], Append(0));
      case Fault(bytes) => ExecOne(Idle, run, Raise(bytes));
      case Forward(cause) => ExecOne(Idle, run, Swap(cause));
      case Emit(k) => ExecOne(Idle, run, Report(k));
    }
  }

  /**
   * In such runs the claim holds from the announcement on: a final event says consumed if and only if the first
   * boundary after the announcement is a confirmation.
   */
  lemma PromptlyConsumedIff(calls: seq<Call>, e: Event, a: nat, at: nat)
    requires var w := CallExec(calls);
             && e in w.log && e.Final? && a < at < |w.trace| && w.trace[a] == Announced(e.item)
             && w.trace[at].Swapped? && NoSwap(w.trace, a + 1, at)
    ensures e.cause == CallExec(calls).trace[at].cause
  {
    CallsArePrompt(calls);
    var trace := CallExec(calls).trace;
    assert trace[a + 1] == Appended(e.item);
    assert FirstBoundary(trace, e.item, at);
    ConsumedIffConfirmedFirst(MovesOf(calls), e, at);
  }

  /** and between calls, when no thread has events left to report, announced = consumed + failed + pending. */
  lemma AccountedBetweenCalls(calls: seq<Call>)
    requires forall k :: 0 <= k < |CallExec(calls).draining| ==> CallExec(calls).draining[k].items == []
    ensures var w := CallExec(calls);
            Count(w.log, AvailableIn(Any())) == Count(w.log, Decided(true)) + Count(w.log, Decided(false)) + |w.pending|
  {
    CallsArePrompt(calls);
    EveryRetrievalIsAccounted(MovesOf(calls), 0);
    WeighZero(CallExec(calls).draining, Left());
  }

  // ---- The class: each call run without interruption ----

  function Finals(items: seq<Item>, cause: Boundary): (r: seq<Event>)
    ensures |r| == |items| && forall i :: 0 <= i < |items| ==> r[i] == Final(items[i], cause)
  {
    seq(|items|, i requires 0 <= i < |items| => Final(items[i], cause))
  }

  /** The thread that swapped the list reports all of it without interruption. */
  function ReportAll(w: World, k: nat): World
    requires k < |w.draining|
    decreases |w.draining[k].items|
  {
    if w.draining[k].items == [] then w else ReportAll(Reports(w, k), k)
  }

  lemma {:induction false} ReportAllIs(w: World, k: nat)
    requires k < |w.draining|
    ensures ReportAll(w, k).log == w.log + Finals(w.draining[k].items, w.draining[k].cause)
    ensures ReportAll(w, k).pending == w.pending
    decreases |w.draining[k].items|
  {
    var b := w.draining[k];
    if b.items != [] {
      var w' := Reports(w, k);
      ReportAllIs(w', k);
      FinalsAfter(w.log, b.items, b.cause);
    } else {
      assert Finals(b.items, b.cause) == [];
    }
  }

  lemma FinalsAfter(log: seq<Event>, items: seq<Item>, cause: Boundary)
    requires items != []
    ensures log + Finals(items, cause) == (log + [Final(items[0], cause)]) + Finals(items[1..], cause)
  {
    var all, rest := Finals(items, cause), Finals(items[1..], cause);
    assert all == [all[0]] + all[1..];
    assert forall i :: 0 <= i < |rest| ==> all[1..][i] == rest[i];
    assert all[1..] == rest;
    assert log + ([all[0]] + rest) == (log + [all[0]]) + rest;
  }

  /** What `Settle` does in one call is a swap followed by its reports. */
  lemma SettleIsSwapAndReports(w: World, cause: Boundary)
    ensures var w' := ReportAll(Swaps(w, cause), |w.draining|);
            w'.pending == [] && w'.log == w.log + Finals(w.pending, cause)
  {
    ReportAllIs(Swaps(w, cause), |w.draining|);
  }

  class KVHopRuntime {
    var nextId: nat
    var pending: seq<Item>
    var log: seq<Event>

    constructor ()
      ensures nextId == 0 && pending == [] && log == []
    {
      nextId := 0;
      pending := [];
      log := [];
    }

    /** The wrapped `retrieve`: None when it raises KVTransferIntegrityError. */
    method Retrieve(expected: int, tokens: int, bytes: int) returns (loaded: Option<int>)
      modifies this
      ensures loaded == if Judge(expected, tokens, bytes).None? then Some(tokens) else None
      ensures var w := Retrieved(World(old(nextId), [], old(pending), [], old(log), []), expected, tokens, bytes);
              nextId == w.nextId && log == w.log && pending == old(pending) + w.transit
      ensures if tokens == expected && tokens > 0 && bytes > 0 then
                var item := Item(old(nextId), expected, tokens, bytes);
                log == old(log) + [Available(item)] && pending == old(pending) + [item] && loaded == Some(tokens)
              else
                var action := if tokens == expected then "fail_request_empty_retrieval" else "fail_request_partial_retrieval";
                log == old(log) + [Failed(tokens, bytes, action)] && pending == old(pending) && loaded == None
    {
      var failure := Judge(expected, tokens, bytes);
      if failure.Some? {
        log := log + [Failed(tokens, bytes, failure.value)];
        return None;
      }
      var item := Item(nextId, expected, tokens, bytes);
      nextId := nextId + 1;
      log := log + [Available(item)];
      pending := pending + [item];
      return Some(tokens);
    }

    method Settle(cause: Boundary)
      modifies this
      ensures pending == [] && nextId == old(nextId)
      ensures log == old(log) + Finals(old(pending), cause)
    {
      var items := pending;
      pending := [];
      var i := 0;
      assert log == old(log) + Finals(items[..0], cause);
      while i < |items|
        invariant i <= |items| && pending == [] && nextId == old(nextId)
        invariant log == old(log) + Finals(items[..i], cause)
      {
        log := log + [Final(items[i], cause)];
        assert Finals(items[..i + 1], cause) == Finals(items[..i], cause) + [Final(items[i], cause)];
        i := i + 1;
      }
      assert items[..i] == items;
    }

    method BeginForward()
      modifies this
      ensures pending == [] && nextId == old(nextId)
      ensures log == old(log) + Finals(old(pending), Fail("previous_forward_not_confirmed"))
    {
      Settle(Fail("previous_forward_not_confirmed"));
    }

    method FailForward(reason: string)
      modifies this
      ensures pending == [] && nextId == old(nextId)
      ensures log == old(log) + Finals(old(pending), Fail(reason))
    {
      Settle(Fail(reason));
    }

    method ConfirmForwardConsumption()
      modifies this
      ensures pending == [] && nextId == old(nextId)
      ensures log == old(log) + Finals(old(pending), Confirm)
    {
      Settle(Confirm);
    }
  }
}
