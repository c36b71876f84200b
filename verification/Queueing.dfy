/**
 * The per-worker dispatch queue of services/gateway/queueing.py.
 *
 * Code between two awaits runs without interruption, so every operation here is one atomic step.
 * The first half is the value-level specification of one worker's queue; the class at the end is
 * the in-place form of the source, whose methods are proved equal to that specification.
 */
module Queueing {
  import opened Basics

  datatype Config = Config(
    maxDepth: int,
    maxInflight: int,
    timeout: real,
    agingGain: real,
    maxOvertakes: int,
    longPromptTokens: int)

  /** A queued request. `id` is the identity of its future, `cancelled` says that future is done. */
  datatype Item = Item(
    id: nat,
    workloadClass: string,
    tokens: int,
    deadline: real,
    enqueued: real,
    passedOver: nat,
    cancelled: bool)

  datatype Key = Key(rank: int, longPrompt: int, slack: real, enqueued: real)

  // Lexicographic order of Python tuples.
  predicate Less(a: Key, b: Key) {
    a.rank < b.rank || (a.rank == b.rank && (
      a.longPrompt < b.longPrompt || (a.longPrompt == b.longPrompt && (
        a.slack < b.slack || (a.slack == b.slack && a.enqueued < b.enqueued)))))
  }

  predicate Starved(c: Config, i: Item) {
    i.passedOver >= c.maxOvertakes
  }

  /** How much of its slack a waiter has earned back by being overtaken. */
  function Credit(c: Config, i: Item): real {
    c.agingGain * i.passedOver as real
  }

  function KeyOf(c: Config, i: Item, now: real): Key {
    Key(
      if Starved(c, i) || i.workloadClass != "batch" then 0 else 1,
      if Starved(c, i) || i.tokens < c.longPromptTokens then 0 else 1,
      i.deadline - now - Credit(c, i),
      i.enqueued)
  }

  predicate Before(c: Config, i: Item, j: Item) {
    Less(KeyOf(c, i, 0.0), KeyOf(c, j, 0.0))
  }

  /** The dispatch order does not depend on the clock reading, although the key does. */
  lemma OrderIgnoresClock(c: Config, i: Item, j: Item, now: real)
    ensures Less(KeyOf(c, i, now), KeyOf(c, j, now)) <==> Before(c, i, j)
  {
  }

  predicate IsBest(c: Config, q: seq<Item>, k: int) {
    && 0 <= k < |q|
    && (forall j :: 0 <= j < |q| ==> !Before(c, q[j], q[k]))
    && (forall j :: 0 <= j < k ==> Before(c, q[k], q[j]))
  }

  lemma LessIsTransitive(x: Key, y: Key, z: Key)
    ensures Less(x, y) && !Less(z, y) ==> Less(x, z)
    ensures !Less(y, x) && !Less(z, y) ==> !Less(z, x)
  {
  }

  /** One more candidate at the end. */
  lemma BestOfOneMore(c: Config, q: seq<Item>, k: nat)
    requires q != [] && IsBest(c, q[..|q| - 1], k)
    ensures IsBest(c, q, if Before(c, q[|q| - 1], q[k]) then |q| - 1 else k)
  {
    var last := q[|q| - 1];
    forall j | 0 <= j < |q| - 1
      ensures !Before(c, q[j], q[k])
      ensures Before(c, last, q[k]) ==> Before(c, last, q[j])
    {
      assert q[..|q| - 1][j] == q[j];
      LessIsTransitive(KeyOf(c, last, 0.0), KeyOf(c, q[k], 0.0), KeyOf(c, q[j], 0.0));
    }
    forall j | 0 <= j < k
      ensures Before(c, q[k], q[j])
    {
      assert q[..|q| - 1][j] == q[j];
    }
    if Before(c, last, q[k]) {
      BeforeIsAsymmetric(c, q, |q| - 1);
    }
  }

  lemma BeforeIsAsymmetric(c: Config, q: seq<Item>, k: nat)
    requires k < |q| && forall j :: 0 <= j < k ==> Before(c, q[k], q[j])
    ensures forall j :: 0 <= j <= k ==> !Before(c, q[j], q[k])
  {
  }

  /** Index of the first item with a minimal key. */
  function Best(c: Config, q: seq<Item>): (k: nat)
    requires q != []
    ensures IsBest(c, q, k)
  {
    if |q| == 1 then 0
    else
      var k := Best(c, q[..|q| - 1]);
      BestOfOneMore(c, q, k);
      if Before(c, q[|q| - 1], q[k]) then |q| - 1 else k
  }

  /** `held` are the granted, unreleased tickets; `dispatched` logs every granted item in order. */
  datatype Queue = Queue(
    waiting: seq<Item>,
    inflight: int,
    held: set<nat>,
    dispatched: seq<Item>,
    nextId: nat,
    clock: real)

  const Empty: Queue := Queue([], 0, {}, [], 0, 0.0)

  function Bump(i: Item, since: real): Item {
    if i.enqueued < since then i.(passedOver := i.passedOver + 1) else i
  }

  /** One more overtake for every item older than `since`. */
  function Age(q: seq<Item>, since: real): (r: seq<Item>)
    ensures |r| == |q|
    ensures forall i :: 0 <= i < |q| ==> r[i] == Bump(q[i], since)
  {
    seq(|q|, i requires 0 <= i < |q| => Bump(q[i], since))
  }

  predicate CanPump(c: Config, s: Queue) {
    s.waiting != [] && s.inflight < c.maxInflight
  }

  /** The item at `k` leaves the list and, unless its future is done, gets a ticket. */
  function Take(s: Queue, k: nat): Queue
    requires k < |s.waiting|
  {
    var best, rest := s.waiting[k], Without(s.waiting, k);
    if best.cancelled then s.(waiting := rest)
    else s.(waiting := Age(rest, best.enqueued),
            inflight := s.inflight + 1,
            held := s.held + {best.id},
            dispatched := s.dispatched + [best])
  }

  function PumpOne(c: Config, s: Queue): Queue
    requires CanPump(c, s)
  {
    Take(s, Best(c, s.waiting))
  }

  function Drain(c: Config, s: Queue): Queue
    decreases |s.waiting|
  {
    if CanPump(c, s) then Drain(c, PumpOne(c, s)) else s
  }

  datatype Event =
    | Arrive(workloadClass: string, tokens: int, deadline: Option<real>, now: real)
    | Expire(id: nat)   // the waiter's future is cancelled: its timeout fired or its caller went away
    | Drop(id: nat)     // the waiter's handler runs and removes its entry
    | Release(id: nat)  // a ticket is released (again)

  function WaitLimit(c: Config, deadline: Option<real>, now: real): real {
    match deadline
    case None => c.timeout
    case Some(d) => if d - now < c.timeout then d - now else c.timeout
  }

  /** A wait of zero or less cancels the future before the next await. */
  function NewItem(c: Config, id: nat, a: Event): Item
    requires a.Arrive?
  {
    Item(id, a.workloadClass, a.tokens,
         if a.deadline.Some? then a.deadline.value else a.now + c.timeout,
         a.now, 0, WaitLimit(c, a.deadline, a.now) <= 0.0)
  }

  function Admit(c: Config, s: Queue, a: Event): Queue
    requires a.Arrive?
  {
    var item := NewItem(c, s.nextId, a);
    if s.waiting == [] && s.inflight < c.maxInflight then
      s.(inflight := s.inflight + 1, held := s.held + {s.nextId}, dispatched := s.dispatched + [item],
         nextId := s.nextId + 1, clock := a.now)
    else if |s.waiting| >= c.maxDepth then s.(clock := a.now)
    else s.(waiting := s.waiting + [item], nextId := s.nextId + 1, clock := a.now)
  }

  function Cancel(q: seq<Item>, id: nat): (r: seq<Item>)
    ensures |r| == |q|
    ensures forall i :: 0 <= i < |q| ==> r[i] == q[i].(cancelled := q[i].cancelled || q[i].id == id)
  {
    seq(|q|, i requires 0 <= i < |q| => q[i].(cancelled := q[i].cancelled || q[i].id == id))
  }

  function IndexOf(q: seq<Item>, id: nat): (k: nat)
    ensures k <= |q| && (k < |q| ==> q[k].id == id)
    ensures forall i :: 0 <= i < k ==> q[i].id != id
  {
    if q == [] || q[0].id == id then 0 else 1 + IndexOf(q[1..], id)
  }

  /** `list.remove`: the first entry with this identity goes, if there is one. */
  function RemoveFirst(q: seq<Item>, id: nat): seq<Item> {
    var k := IndexOf(q, id);
    if k < |q| then Without(q, k) else q
  }

  function GiveBack(c: Config, s: Queue, id: nat): Queue {
    if id in s.held then Drain(c, s.(held := s.held - {id}, inflight := s.inflight - 1)) else s
  }

  function Step(c: Config, s: Queue, e: Event): Queue {
    match e
    case Arrive(_, _, _, _) => Admit(c, s, e)
    case Expire(id) => s.(waiting := Cancel(s.waiting, id))
    case Drop(id) => s.(waiting := RemoveFirst(s.waiting, id))
    case Release(id) => GiveBack(c, s, id)
  }

  /** The only assumption on the environment: the clock never goes back. */
  predicate Enabled(s: Queue, e: Event) {
    e.Arrive? ==> e.now >= s.clock
  }

  function Exec(c: Config, s: Queue, es: seq<Event>): Queue {
    if es == [] then s else Step(c, Exec(c, s, es[..|es| - 1]), es[|es| - 1])
  }

  predicate ValidRun(c: Config, s: Queue, es: seq<Event>) {
    es == [] ||
    var front := es[..|es| - 1];
    ValidRun(c, s, front) && Enabled(Exec(c, s, front), es[|es| - 1])
  }

  // ---- What every step keeps ----

  predicate Ordered(q: seq<Item>) {
    && (forall i, j :: 0 <= i < j < |q| ==> q[i].id < q[j].id)
    && (forall i, j :: 0 <= i < j < |q| ==> q[i].enqueued <= q[j].enqueued)
    && (forall i, j :: 0 <= i < j < |q| ==> q[i].passedOver >= q[j].passedOver)
  }

  predicate Fresh(s: Queue) {
    && (forall i :: 0 <= i < |s.waiting| ==>
          && s.waiting[i].id < s.nextId && s.waiting[i].id !in s.held
          && s.waiting[i].enqueued <= s.clock)
    && (forall t :: t in s.held ==> t < s.nextId)
  }

  predicate Timely(q: seq<Item>) {
    forall i :: 0 <= i < |q| && !q[i].cancelled ==> q[i].deadline > q[i].enqueued
  }

  predicate Slots(c: Config, s: Queue) {
    && s.inflight == |s.held| <= Max(0, c.maxInflight)
    && |s.waiting| <= Max(0, c.maxDepth)
  }

  /** max(max_overtakes, ceil((deadline - enqueued) / aging_gain)), at least 1. */
  function Threshold(c: Config, i: Item): (t: int)
    requires c.agingGain > 0.0
    ensures t >= 1 && t >= c.maxOvertakes
  {
    Max(c.maxOvertakes, Max(1, Ceil((i.deadline - i.enqueued) / c.agingGain)))
  }

  /** Newer items whose overtake count is still within `t` of `x`'s. */
  function Rival(x: Item, t: int): Item -> bool {
    (y: Item) => y.enqueued > x.enqueued && x.passedOver - y.passedOver < t
  }

  predicate PatientItem(c: Config, q: seq<Item>, x: Item)
    requires c.agingGain > 0.0
  {
    x.passedOver + Count(q, Rival(x, Threshold(c, x))) <= Threshold(c, x) + c.maxDepth - 2
  }

  predicate Patient(c: Config, q: seq<Item>) {
    c.agingGain > 0.0 ==> forall k :: 0 <= k < |q| ==> PatientItem(c, q, q[k])
  }

  ghost predicate Inv(c: Config, s: Queue) {
    Ordered(s.waiting) && Fresh(s) && Timely(s.waiting) && Slots(c, s) && Patient(c, s.waiting)
  }

  ghost predicate WorkConserving(c: Config, s: Queue) {
    s.waiting != [] ==> s.inflight >= c.maxInflight
  }

  lemma ThresholdCoversSlack(c: Config, i: Item)
    requires c.agingGain > 0.0
    ensures Threshold(c, i) as real * c.agingGain >= i.deadline - i.enqueued
  {
    var x := (i.deadline - i.enqueued) / c.agingGain;
    var t := Threshold(c, i) as real;
    assert t >= x;
    assert (t - x) * c.agingGain >= 0.0;
    assert x * c.agingGain == i.deadline - i.enqueued;
  }

  lemma CreditGap(c: Config, x: Item, y: Item)
    requires c.agingGain > 0.0 && x.passedOver - y.passedOver >= Threshold(c, x)
    ensures Credit(c, x) - Credit(c, y) >= x.deadline - x.enqueued
  {
    ThresholdCoversSlack(c, x);
    var t := Threshold(c, x) as real;
    var d := x.passedOver as real - y.passedOver as real - t;
    assert d >= 0.0 && c.agingGain * d >= 0.0;
    assert Credit(c, x) - Credit(c, y) - t * c.agingGain == c.agingGain * d;
  }

  lemma SlackDecides(c: Config, x: Item, y: Item)
    requires Starved(c, x) && x.deadline - Credit(c, x) < y.deadline - Credit(c, y)
    ensures Before(c, x, y)
  {
  }

  /** A waiter far enough ahead in overtakes beats every newer live waiter. */
  lemma FarAheadBeatsNewer(c: Config, x: Item, y: Item)
    requires c.agingGain > 0.0
    requires y.enqueued > x.enqueued && y.deadline > y.enqueued
    requires x.passedOver - y.passedOver >= Threshold(c, x)
    ensures Before(c, x, y)
  {
    CreditGap(c, x, y);
    SlackDecides(c, x, y);
  }

  /** Ageing never brings a newer item closer in overtakes, so it creates no rival. */
  lemma AgeKeepsRivals(q: seq<Item>, x: Item, since: real, t: int)
    ensures Count(Age(q, since), Rival(Bump(x, since), t)) <= Count(q, Rival(x, t))
  {
    CountMono(Age(q, since), Rival(Bump(x, since), t), q, Rival(x, t));
  }

  /** Whoever is passed by `b` was not far ahead of it, so `b` was a rival. */
  lemma PassedByRival(c: Config, x: Item, b: Item)
    requires c.agingGain > 0.0 && !Before(c, x, b) && b.deadline > b.enqueued && x.enqueued < b.enqueued
    ensures Rival(x, Threshold(c, x))(b)
  {
    if x.passedOver - b.passedOver >= Threshold(c, x) {
      FarAheadBeatsNewer(c, x, b);
    }
  }

  /** After the dispatch of a live `b`: either `x` is not passed, or it is and has lost the rival `b`. */
  lemma DispatchKeepsPatient(c: Config, q: seq<Item>, k: nat, x: Item)
    requires c.agingGain > 0.0 && k < |q| && q[k].deadline > q[k].enqueued
    requires !Before(c, x, q[k]) && PatientItem(c, q, x)
    ensures PatientItem(c, Age(Without(q, k), q[k].enqueued), Bump(x, q[k].enqueued))
  {
    var b, rest, t := q[k], Without(q, k), Threshold(c, x);
    CountWithout(q, k, Rival(x, t));
    AgeKeepsRivals(rest, x, b.enqueued, t);
    assert Threshold(c, Bump(x, b.enqueued)) == t;
    if x.enqueued < b.enqueued {
      PassedByRival(c, x, b);
    }
  }

  lemma TakeKeepsPatient(c: Config, s: Queue, k: nat, i: nat)
    requires c.agingGain > 0.0 && Timely(s.waiting) && Patient(c, s.waiting)
    requires IsBest(c, s.waiting, k) && i < |s.waiting| - 1
    ensures i < |Take(s, k).waiting| && PatientItem(c, Take(s, k).waiting, Take(s, k).waiting[i])
  {
    var rest, x := Without(s.waiting, k), s.waiting[if i < k then i else i + 1];
    assert rest[i] == x && PatientItem(c, s.waiting, x) && !Before(c, x, s.waiting[k]);
    if s.waiting[k].cancelled {
      CountWithout(s.waiting, k, Rival(x, Threshold(c, x)));
    } else {
      DispatchKeepsPatient(c, s.waiting, k, x);
    }
  }

  lemma PumpOneKeepsPatient(c: Config, s: Queue)
    requires CanPump(c, s) && Timely(s.waiting) && Patient(c, s.waiting)
    ensures Patient(c, PumpOne(c, s).waiting)
  {
    if c.agingGain > 0.0 {
      var k := Best(c, s.waiting);
      var q := Take(s, k).waiting;
      assert |q| == |s.waiting| - 1;
      forall i | 0 <= i < |q|
        ensures PatientItem(c, q, q[i])
      {
        TakeKeepsPatient(c, s, k, i);
      }
    }
  }

  lemma AgeKeepsOrder(q: seq<Item>, since: real)
    requires Ordered(q)
    ensures Ordered(Age(q, since))
  {
    var r := Age(q, since);
    forall i, j | 0 <= i < j < |r|
      ensures r[i].id < r[j].id && r[i].enqueued <= r[j].enqueued && r[i].passedOver >= r[j].passedOver
    {
      assert r[i] == Bump(q[i], since) && r[j] == Bump(q[j], since);
    }
  }

  lemma WithoutKeepsOrder(q: seq<Item>, k: nat)
    requires Ordered(q) && k < |q|
    ensures Ordered(Without(q, k))
    ensures forall i :: 0 <= i < |q| - 1 ==> Without(q, k)[i] in q && Without(q, k)[i].id != q[k].id
  {
    var r := Without(q, k);
    assert forall i :: 0 <= i < |r| ==> r[i] == q[if i < k then i else i + 1];
  }

  lemma TakeKeepsOrder(c: Config, s: Queue, k: nat)
    requires k < |s.waiting| && s.inflight < c.maxInflight
    requires Ordered(s.waiting) && Fresh(s) && Timely(s.waiting) && Slots(c, s)
    ensures var s' := Take(s, k); Ordered(s'.waiting) && Fresh(s') && Timely(s'.waiting) && Slots(c, s')
  {
    var rest := Without(s.waiting, k);
    WithoutKeepsOrder(s.waiting, k);
    AgeKeepsOrder(rest, s.waiting[k].enqueued);
    var s' := Take(s, k);
    forall i | 0 <= i < |s'.waiting|
      ensures s'.waiting[i].id < s'.nextId && s'.waiting[i].id !in s'.held && s'.waiting[i].enqueued <= s'.clock
      ensures !s'.waiting[i].cancelled ==> s'.waiting[i].deadline > s'.waiting[i].enqueued
    {
      assert rest[i] in s.waiting && rest[i].id != s.waiting[k].id;
    }
    assert s.waiting[k].id !in s.held;
  }

  /** The pump runs until nobody waits or every slot is busy. */
  lemma {:induction false} DrainKeepsInv(c: Config, s: Queue)
    requires Inv(c, s)
    ensures Inv(c, Drain(c, s)) && WorkConserving(c, Drain(c, s))
    decreases |s.waiting|
  {
    if !CanPump(c, s) {
    } else {
      TakeKeepsOrder(c, s, Best(c, s.waiting));
      PumpOneKeepsPatient(c, s);
      DrainKeepsInv(c, PumpOne(c, s));
    }
  }

  lemma AppendKeepsPatient(c: Config, q: seq<Item>, y: Item)
    requires Patient(c, q) && |q| < c.maxDepth && y.passedOver == 0
    requires forall i :: 0 <= i < |q| ==> q[i].enqueued <= y.enqueued
    ensures Patient(c, q + [y])
  {
    if c.agingGain > 0.0 {
      forall k | 0 <= k < |q| + 1
        ensures PatientItem(c, q + [y], (q + [y])[k])
      {
        var x := (q + [y])[k];
        var f := Rival(x, Threshold(c, x));
        CountConcat(q, [y], f);
        assert Count([y], f) == if f(y) then 1 else 0;
        if k < |q| {
          CountWithout(q, k, f);
        } else {
          CountZero(q, f);
        }
      }
    }
  }

  lemma WithoutKeepsPatient(c: Config, q: seq<Item>, k: nat)
    requires Patient(c, q) && k < |q|
    ensures Patient(c, Without(q, k))
  {
    var rest := Without(q, k);
    if c.agingGain > 0.0 {
      forall i | 0 <= i < |rest|
        ensures PatientItem(c, rest, rest[i])
      {
        var m := if i < k then i else i + 1;
        assert rest[i] == q[m] && PatientItem(c, q, q[m]);
        CountWithout(q, k, Rival(rest[i], Threshold(c, rest[i])));
      }
    }
  }

  lemma WithoutKeepsInv(c: Config, s: Queue, k: nat)
    requires Inv(c, s) && k < |s.waiting|
    ensures Inv(c, s.(waiting := Without(s.waiting, k)))
  {
    WithoutKeepsPatient(c, s.waiting, k);
    WithoutKeepsOrder(s.waiting, k);
    var rest := Without(s.waiting, k);
    assert forall i :: 0 <= i < |rest| ==> rest[i] == s.waiting[if i < k then i else i + 1];
  }

  lemma CancelKeepsPatient(c: Config, q: seq<Item>, id: nat)
    requires Patient(c, q)
    ensures Patient(c, Cancel(q, id))
  {
    var r := Cancel(q, id);
    if c.agingGain > 0.0 {
      forall i | 0 <= i < |r|
        ensures PatientItem(c, r, r[i])
      {
        var x := q[i];
        assert Threshold(c, r[i]) == Threshold(c, x) && PatientItem(c, q, x);
        CountMono(r, Rival(r[i], Threshold(c, x)), q, Rival(x, Threshold(c, x)));
      }
    }
  }

  lemma CancelKeepsInv(c: Config, s: Queue, id: nat)
    requires Inv(c, s)
    ensures Inv(c, s.(waiting := Cancel(s.waiting, id)))
  {
    CancelKeepsPatient(c, s.waiting, id);
  }

  /** A waiter that is not cancelled at once has time left. */
  lemma NewItemIsTimely(c: Config, id: nat, a: Event)
    requires a.Arrive?
    ensures var y := NewItem(c, id, a); y.enqueued == a.now && y.passedOver == 0 && (!y.cancelled ==> y.deadline > y.enqueued)
  {
  }

  lemma AppendKeepsOrder(q: seq<Item>, y: Item)
    requires Ordered(q) && y.passedOver == 0
    requires forall i :: 0 <= i < |q| ==> q[i].id < y.id && q[i].enqueued <= y.enqueued
    ensures Ordered(q + [y])
  {
    var r := q + [y];
    assert forall i :: 0 <= i < |r| ==> r[i] == if i < |q| then q[i] else y;
  }

  lemma AdmitKeepsInv(c: Config, s: Queue, a: Event)
    requires a.Arrive? && Enabled(s, a) && Inv(c, s) && WorkConserving(c, s)
    ensures Inv(c, Admit(c, s, a)) && WorkConserving(c, Admit(c, s, a))
  {
    if s.waiting == [] && s.inflight < c.maxInflight {
      assert s.nextId !in s.held;
    } else if |s.waiting| < c.maxDepth {
      QueueKeepsInv(c, s, a, NewItem(c, s.nextId, a));
    }
  }

  lemma QueueKeepsInv(c: Config, s: Queue, a: Event, y: Item)
    requires a.Arrive? && Enabled(s, a) && Inv(c, s) && |s.waiting| < c.maxDepth && y == NewItem(c, s.nextId, a)
    ensures Inv(c, s.(waiting := s.waiting + [y], nextId := s.nextId + 1, clock := a.now))
  {
    NewItemIsTimely(c, s.nextId, a);
    AppendKeepsOrder(s.waiting, y);
    AppendKeepsPatient(c, s.waiting, y);
    var r := s.waiting + [y];
    assert forall i :: 0 <= i < |r| ==> r[i] == if i < |s.waiting| then s.waiting[i] else y;
  }

  lemma DropKeepsInv(c: Config, s: Queue, id: nat)
    requires Inv(c, s) && WorkConserving(c, s)
    ensures var s' := s.(waiting := RemoveFirst(s.waiting, id)); Inv(c, s') && WorkConserving(c, s')
  {
    if IndexOf(s.waiting, id) < |s.waiting| {
      WithoutKeepsInv(c, s, IndexOf(s.waiting, id));
    }
  }

  lemma GiveBackKeepsInv(c: Config, s: Queue, id: nat)
    requires Inv(c, s) && WorkConserving(c, s)
    ensures Inv(c, GiveBack(c, s, id)) && WorkConserving(c, GiveBack(c, s, id))
  {
    if id in s.held {
      DrainKeepsInv(c, s.(held := s.held - {id}, inflight := s.inflight - 1));
    }
  }

  lemma StepKeepsInv(c: Config, s: Queue, e: Event)
    requires Enabled(s, e) && Inv(c, s) && WorkConserving(c, s)
    ensures Inv(c, Step(c, s, e)) && WorkConserving(c, Step(c, s, e))
  {
    match e
    case Arrive(_, _, _, _) => AdmitKeepsInv(c, s, e);
    case Expire(id) => CancelKeepsInv(c, s, id);
    case Drop(id) => DropKeepsInv(c, s, id);
    case Release(id) => GiveBackKeepsInv(c, s, id);
  }

  lemma {:induction false} ExecKeepsInv(c: Config, s: Queue, es: seq<Event>)
    requires Inv(c, s) && WorkConserving(c, s) && ValidRun(c, s, es)
    ensures Inv(c, Exec(c, s, es)) && WorkConserving(c, Exec(c, s, es))
  {
    if es == [] {
    } else {
      var front := es[..|es| - 1];
      ExecKeepsInv(c, s, front);
      StepKeepsInv(c, Exec(c, s, front), es[|es| - 1]);
    }
  }

  /**
   * Slot safety and work conservation: in every reachable state the in-flight count is the number
   * of granted, unreleased tickets, both bounds hold, and nobody waits while a slot is free.
   */
  lemma SlotSafety(c: Config, es: seq<Event>)
    requires ValidRun(c, Empty, es)
    ensures var s := Exec(c, Empty, es);
            && s.inflight == |s.held| <= Max(0, c.maxInflight)
            && |s.waiting| <= Max(0, c.maxDepth)
            && (s.waiting != [] ==> s.inflight >= c.maxInflight)
  {
    ExecKeepsInv(c, Empty, es);
  }

  /**
   * Bounded overtaking: whatever happens, a waiter that had time left when it was queued is jumped
   * at most max(max_overtakes, ceil((deadline - enqueued) / aging_gain)) + max_depth - 2 times.
   */
  lemma BoundedOvertaking(c: Config, es: seq<Event>, i: Item)
    requires c.agingGain > 0.0 && ValidRun(c, Empty, es)
    requires i in Exec(c, Empty, es).waiting && i.deadline > i.enqueued
    ensures i.passedOver <= Max(c.maxOvertakes, Ceil((i.deadline - i.enqueued) / c.agingGain)) + c.maxDepth - 2
  {
    ExecKeepsInv(c, Empty, es);
    OvertakesBounded(c, Exec(c, Empty, es).waiting, i);
  }

  lemma OvertakesBounded(c: Config, q: seq<Item>, i: Item)
    requires c.agingGain > 0.0 && Patient(c, q) && i in q && i.deadline > i.enqueued
    ensures i.passedOver <= Max(c.maxOvertakes, Ceil((i.deadline - i.enqueued) / c.agingGain)) + c.maxDepth - 2
  {
    assert PatientItem(c, q, i);
    var x := i.deadline - i.enqueued;
    assert x / c.agingGain > 0.0;
  }

  // ---- How long a waiter can be held up ----

  /** The item chosen at each dispatch has a minimal key: no waiter, live or not, had a smaller one. */
  lemma GrantIsMinimal(c: Config, s: Queue, now: real)
    requires CanPump(c, s) && PumpOne(c, s).dispatched != s.dispatched
    ensures var d := PumpOne(c, s).dispatched;
            && d[..|d| - 1] == s.dispatched && d[|d| - 1] in s.waiting && !d[|d| - 1].cancelled
            && forall y :: y in s.waiting ==> !Less(KeyOf(c, y, now), KeyOf(c, d[|d| - 1], now))
  {
    var b := s.waiting[Best(c, s.waiting)];
    forall y | y in s.waiting
      ensures !Less(KeyOf(c, y, now), KeyOf(c, b, now))
    {
      OrderIgnoresClock(c, y, b, now);
    }
  }

  /** Ranked behind the other classes: a batch request that has not been overtaken often enough. */
  predicate Yields(c: Config, i: Item) {
    i.workloadClass == "batch" && i.passedOver < c.maxOvertakes
  }

  /** Ranked behind the short ones: a long prompt that has not been overtaken often enough. */
  predicate Slow(c: Config, i: Item) {
    i.tokens >= c.longPromptTokens && i.passedOver < c.maxOvertakes
  }

  function Urgency(c: Config, i: Item): real {
    i.deadline - c.agingGain * i.passedOver as real
  }

  /** `b` may go although `y` waits: class before length, length before slack, slack before arrival. */
  predicate MayPrecede(c: Config, b: Item, y: Item) {
    && (Yields(c, b) ==> Yields(c, y))
    && (Yields(c, b) == Yields(c, y) ==>
          && (Slow(c, b) ==> Slow(c, y))
          && (Slow(c, b) == Slow(c, y) ==>
                && Urgency(c, b) <= Urgency(c, y)
                && (Urgency(c, b) == Urgency(c, y) ==> b.enqueued <= y.enqueued)))
  }

  /** Nothing in the order tells `b` and `y` apart. */
  predicate Ties(c: Config, b: Item, y: Item) {
    Yields(c, b) == Yields(c, y) && Slow(c, b) == Slow(c, y) && Urgency(c, b) == Urgency(c, y) && b.enqueued == y.enqueued
  }

  /** The waiter at `k` is the next to leave `q`. */
  predicate LeavesNext(c: Config, q: seq<Item>, k: nat) {
    k < |q| && forall j :: 0 <= j < |q| ==> MayPrecede(c, q[k], q[j]) && (Ties(c, q[k], q[j]) ==> k <= j)
  }

  /**
   * The dispatch order. A batch request that is not starved goes only when every waiter is such a
   * request; among equals in that, a long one that is not starved only when every waiter is long and
   * not starved; then the least deadline less aging credit goes, then the earliest arrival, then the
   * first in the list. A live one gets the slot and overtakes exactly the older waiters; a cancelled
   * one is only taken off the list.
   */
  lemma DispatchOrder(c: Config, s: Queue)
    requires CanPump(c, s)
    ensures exists k: nat :: LeavesNext(c, s.waiting, k) && Left(s, k, PumpOne(c, s))
    ensures forall k: nat :: LeavesNext(c, s.waiting, k) ==> Left(s, k, PumpOne(c, s))
  {
    var k := Best(c, s.waiting);
    forall j | 0 <= j < |s.waiting|
      ensures MayPrecede(c, s.waiting[k], s.waiting[j]) && (Ties(c, s.waiting[k], s.waiting[j]) ==> k <= j)
    {
      KeyOrders(c, s.waiting[k], s.waiting[j]);
    }
    assert LeavesNext(c, s.waiting, k);
    forall m: nat | LeavesNext(c, s.waiting, m)
      ensures m == k
    {
      OneLeaves(c, s.waiting, k, m);
    }
    TakeLeaves(s, k);
  }

  /** The order is total up to ties, so only one waiter can be next. */
  lemma OneLeaves(c: Config, q: seq<Item>, k: nat, m: nat)
    requires LeavesNext(c, q, k) && LeavesNext(c, q, m)
    ensures k == m
  {
    assert MayPrecede(c, q[k], q[m]) && MayPrecede(c, q[m], q[k]);
    assert Ties(c, q[k], q[m]) && Ties(c, q[m], q[k]);
  }

  /** The keys realise the order. */
  lemma KeyOrders(c: Config, b: Item, y: Item)
    ensures !Before(c, y, b) <==> MayPrecede(c, b, y)
    ensures Ties(c, b, y) ==> !Before(c, b, y)
  {
  }

  predicate Overtaken(y: Item, b: Item, y': Item) {
    y' == y.(passedOver := y.passedOver + (if y.enqueued < b.enqueued then 1 else 0))
  }

  /** The waiter at `k` of `s` has left: `s'` is the queue after it. */
  predicate Left(s: Queue, k: nat, s': Queue) {
    && k < |s.waiting| && |s'.waiting| == |s.waiting| - 1
    && s'.nextId == s.nextId && s'.clock == s.clock
    && var b := s.waiting[k];
    && (if b.cancelled then s'.inflight == s.inflight && s'.held == s.held && s'.dispatched == s.dispatched
        else s'.inflight == s.inflight + 1 && s'.held == s.held + {b.id} && s'.dispatched == s.dispatched + [b])
    && forall j :: 0 <= j < |s.waiting| - 1 ==>
         var y := s.waiting[if j < k then j else j + 1];
         if b.cancelled then s'.waiting[j] == y else Overtaken(y, b, s'.waiting[j])
  }

  lemma TakeLeaves(s: Queue, k: nat)
    requires k < |s.waiting|
    ensures Left(s, k, Take(s, k))
  {
    assert forall j :: 0 <= j < |s.waiting| - 1 ==> Without(s.waiting, k)[j] == s.waiting[if j < k then j else j + 1];
  }

  /** A request that finds `waiting` others: what it becomes, and what it is answered. */
  predicate Joined(c: Config, s: Queue, a: Event, i: Item)
    requires a.Arrive?
  {
    && i.id == s.nextId && i.workloadClass == a.workloadClass && i.tokens == a.tokens
    && i.enqueued == a.now && i.passedOver == 0
    && (match a.deadline
        case Some(d) => i.deadline == d && (i.cancelled <==> c.timeout <= 0.0 || d <= a.now)
        case None => i.deadline == a.now + c.timeout && (i.cancelled <==> c.timeout <= 0.0))
  }

  /**
   * Admission: an arrival gets a slot at once exactly when nobody waits and one is free, joins the
   * end of the list exactly when it got none and the list is shorter than its depth, and otherwise
   * is refused without a trace. It waits dead if its deadline or the timeout leaves it no time.
   */
  lemma AdmissionIsExact(c: Config, s: Queue, a: Event)
    requires a.Arrive?
    ensures var s' := Step(c, s, a);
            var free := s.waiting == [] && s.inflight < c.maxInflight;
            var full := |s.waiting| >= c.maxDepth;
            && (s'.inflight == s.inflight + 1 <==> free) && (!free ==> s'.inflight == s.inflight)
            && s'.held == (if free then s.held + {s.nextId} else s.held)
            && s'.nextId == (if free || !full then s.nextId + 1 else s.nextId)
            && (free ==> s'.waiting == [] && |s'.dispatched| == |s.dispatched| + 1 && s'.dispatched[..|s.dispatched|] == s.dispatched
                         && Joined(c, s, a, s'.dispatched[|s.dispatched|]))
            && (!free ==> s'.dispatched == s.dispatched)
            && (!free && !full ==> |s'.waiting| == |s.waiting| + 1 && s'.waiting[..|s.waiting|] == s.waiting
                                   && Joined(c, s, a, s'.waiting[|s.waiting|]))
            && (!free && full ==> s'.waiting == s.waiting)
            && (Answer(c, s) == if free then Granted(s.nextId) else if full then QueueFull else Queued(s.nextId))
  {
  }

  /** Waiters other than `x` that are not strictly newer than it. */
  function NotNewer(x: Item): Item -> bool {
    (y: Item) => y.id != x.id && y.enqueued <= x.enqueued
  }

  predicate SameWaiter(x: Item, y: Item) {
    x.id == y.id && x.enqueued == y.enqueued && x.deadline == y.deadline
  }

  /**
   * Every dispatch made while `x` waits either jumps it, and is counted, or uses up a waiter that is not newer,
   * of which there are only those that were there and `ties` that came at its own clock reading.
   */
  predicate Charged(s: Queue, x: Item, s': Queue, x': Item, ties: nat) {
    && SameWaiter(x, x')
    && |s'.dispatched| - |s.dispatched| + Count(s'.waiting, NotNewer(x'))
       <= Count(s.waiting, NotNewer(x)) + x'.passedOver - x.passedOver + ties
  }

  lemma TakeCharges(s: Queue, k: nat, m: nat)
    requires k < |s.waiting| && m < |s.waiting| && k != m && Ordered(s.waiting)
    ensures var s' := Take(s, k); var i := if m < k then m else m - 1;
            i < |s'.waiting| && Charged(s, s.waiting[m], s', s'.waiting[i], 0)
  {
    var s', x := Take(s, k), s.waiting[m];
    var i := if m < k then m else m - 1;
    var rest := Without(s.waiting, k);
    assert rest[i] == x;
    CountWithout(s.waiting, k, NotNewer(x));
    CountMono(s'.waiting, NotNewer(s'.waiting[i]), rest, NotNewer(x));
  }

  lemma {:induction false} DrainKeepsIds(c: Config, s: Queue, id: nat)
    requires forall y :: y in s.waiting ==> y.id != id
    ensures forall y :: y in Drain(c, s).waiting ==> y.id != id
    decreases |s.waiting|
  {
    if !CanPump(c, s) {
    } else {
      DrainKeepsIds(c, PumpOne(c, s), id);
    }
  }

  lemma {:induction false} DrainCharges(c: Config, s: Queue, x: Item, x': Item)
    requires Inv(c, s) && x in s.waiting && x' in Drain(c, s).waiting && x'.id == x.id
    ensures Charged(s, x, Drain(c, s), x', 0)
    decreases |s.waiting|
  {
    var m: nat :| m < |s.waiting| && s.waiting[m] == x;
    if !CanPump(c, s) {
    } else {
      var k := Best(c, s.waiting);
      var s1 := PumpOne(c, s);
      TakeKeepsOrder(c, s, k);
      PumpOneKeepsPatient(c, s);
      if k == m {
        WithoutKeepsOrder(s.waiting, k);
        DrainKeepsIds(c, s1, x.id);
        assert false;
      } else {
        TakeCharges(s, k, m);
        DrainCharges(c, s1, s1.waiting[if m < k then m else m - 1], x');
      }
    }
  }

  lemma UniqueIds(q: seq<Item>, x: Item, y: Item)
    requires Ordered(q) && x in q && y in q && x.id == y.id
    ensures x == y
  {
  }

  lemma AppendCharges(s: Queue, s': Queue, y: Item, x: Item)
    requires Ordered(s.waiting) && x in s.waiting && x.enqueued <= y.enqueued
    requires s'.waiting == s.waiting + [y] && s'.dispatched == s.dispatched
    ensures Charged(s, x, s', x, if y.enqueued == x.enqueued then 1 else 0)
  {
    CountConcat(s.waiting, [y], NotNewer(x));
    assert Count([y], NotNewer(x)) <= if y.enqueued == x.enqueued then 1 else 0;
  }

  lemma CancelCharges(s: Queue, id: nat, x: Item, x': Item)
    requires Ordered(s.waiting) && x in s.waiting && x' in Cancel(s.waiting, id) && x'.id == x.id
    ensures Charged(s, x, s.(waiting := Cancel(s.waiting, id)), x', 0)
  {
    var i :| 0 <= i < |s.waiting| && Cancel(s.waiting, id)[i] == x';
    UniqueIds(s.waiting, s.waiting[i], x);
    CountMono(Cancel(s.waiting, id), NotNewer(x'), s.waiting, NotNewer(x));
  }

  lemma DropCharges(s: Queue, id: nat, x: Item, x': Item)
    requires Ordered(s.waiting) && x in s.waiting && x' in RemoveFirst(s.waiting, id) && x'.id == x.id
    ensures Charged(s, x, s.(waiting := RemoveFirst(s.waiting, id)), x', 0)
  {
    var k := IndexOf(s.waiting, id);
    if k < |s.waiting| {
      WithoutKeepsOrder(s.waiting, k);
      CountWithout(s.waiting, k, NotNewer(x));
    }
    UniqueIds(s.waiting, x, x');
  }

  /** Arrivals at a given clock reading. */
  function ArrivesAt(at: real): Event -> bool {
    (e: Event) => e.Arrive? && e.now == at
  }

  lemma ArriveCharges(c: Config, s: Queue, e: Event, x: Item, x': Item)
    requires e.Arrive? && Inv(c, s) && Enabled(s, e) && x in s.waiting && x' in Admit(c, s, e).waiting && x'.id == x.id
    ensures Charged(s, x, Admit(c, s, e), x', if e.now == x.enqueued then 1 else 0)
  {
    var y := NewItem(c, s.nextId, e);
    NewItemIsTimely(c, s.nextId, e);
    assert y.id != x.id;
    assert x' in s.waiting;
    UniqueIds(s.waiting, x, x');
    if |s.waiting| < c.maxDepth {
      AppendCharges(s, Admit(c, s, e), y, x);
    }
  }

  lemma GiveBackCharges(c: Config, s: Queue, id: nat, x: Item, x': Item)
    requires Inv(c, s) && x in s.waiting && x' in GiveBack(c, s, id).waiting && x'.id == x.id
    ensures Charged(s, x, GiveBack(c, s, id), x', 0)
  {
    if id in s.held {
      DrainCharges(c, s.(held := s.held - {id}, inflight := s.inflight - 1), x, x');
    } else {
      UniqueIds(s.waiting, x, x');
    }
  }

  lemma StepCharges(c: Config, s: Queue, e: Event, x: Item, x': Item)
    requires Inv(c, s) && Enabled(s, e) && x in s.waiting && x' in Step(c, s, e).waiting && x'.id == x.id
    ensures Charged(s, x, Step(c, s, e), x', if ArrivesAt(x.enqueued)(e) then 1 else 0)
  {
    match e
    case Arrive(_, _, _, _) => ArriveCharges(c, s, e, x, x');
    case Expire(id) => CancelCharges(s, id, x, x');
    case Drop(id) => DropCharges(s, id, x, x');
    case Release(id) => GiveBackCharges(c, s, id, x, x');
  }

  ghost predicate Waits(s: Queue, id: nat) {
    exists y :: y in s.waiting && y.id == id
  }

  lemma {:induction false} DrainKeepsNextId(c: Config, s: Queue)
    ensures Drain(c, s).nextId == s.nextId
    decreases |s.waiting|
  {
    if !CanPump(c, s) {
    } else {
      DrainKeepsNextId(c, PumpOne(c, s));
    }
  }

  lemma StillWaitsThroughDrain(c: Config, s: Queue, id: nat)
    requires Waits(Drain(c, s), id)
    ensures Waits(s, id)
  {
    if forall z :: z in s.waiting ==> z.id != id {
      DrainKeepsIds(c, s, id);
    }
  }

  lemma StillWaitsThroughCancel(q: seq<Item>, k: nat, y: Item)
    requires y in Cancel(q, k)
    ensures exists z :: z in q && z.id == y.id
  {
    var i :| 0 <= i < |q| && Cancel(q, k)[i] == y;
    assert q[i] in q && q[i].id == y.id;
  }

  /** A waiter that has left the queue does not come back. */
  lemma StillWaits(c: Config, s: Queue, e: Event, id: nat)
    requires id < s.nextId && Waits(Step(c, s, e), id)
    ensures Waits(s, id)
  {
    var y :| y in Step(c, s, e).waiting && y.id == id;
    match e
    case Arrive(_, _, _, _) => assert y in s.waiting;
    case Expire(k) => StillWaitsThroughCancel(s.waiting, k, y);
    case Drop(k) => assert y in s.waiting;
    case Release(k) =>
      if k in s.held {
        StillWaitsThroughDrain(c, s.(held := s.held - {k}, inflight := s.inflight - 1), id);
      }
  }

  lemma NextIdGrows(c: Config, s: Queue, e: Event)
    ensures s.nextId <= Step(c, s, e).nextId
  {
    if e.Release? && e.id in s.held {
      DrainKeepsNextId(c, s.(held := s.held - {e.id}, inflight := s.inflight - 1));
    }
  }

  lemma {:induction false} ExecGrows(c: Config, s: Queue, es: seq<Event>)
    ensures s.nextId <= Exec(c, s, es).nextId
  {
    if es == [] {
    } else {
      ExecGrows(c, s, es[..|es| - 1]);
      NextIdGrows(c, Exec(c, s, es[..|es| - 1]), es[|es| - 1]);
    }
  }

  lemma {:induction false} ExecCharges(c: Config, s: Queue, x: Item, es: seq<Event>, x': Item)
    requires Inv(c, s) && WorkConserving(c, s) && ValidRun(c, s, es)
    requires x in s.waiting && x' in Exec(c, s, es).waiting && x'.id == x.id
    ensures Charged(s, x, Exec(c, s, es), x', Count(es, ArrivesAt(x.enqueued)))
  {
    if es == [] {
      UniqueIds(s.waiting, x, x');
    } else {
      var front, e := es[..|es| - 1], es[|es| - 1];
      var s1 := Exec(c, s, front);
      ExecGrows(c, s, front);
      StillWaits(c, s1, e, x.id);
      var x1 :| x1 in s1.waiting && x1.id == x.id;
      ExecCharges(c, s, x, front, x1);
      ExecKeepsInv(c, s, front);
      StepCharges(c, s1, e, x1, x');
    }
  }

  lemma ChargeBounds(c: Config, s: Queue, x: Item, s': Queue, x': Item, ties: nat)
    requires c.agingGain > 0.0 && Slots(c, s) && Patient(c, s'.waiting) && Charged(s, x, s', x', ties)
    requires x in s.waiting && x' in s'.waiting && x.deadline > x.enqueued
    ensures |s'.dispatched| - |s.dispatched|
            <= Max(c.maxOvertakes, Ceil((x.deadline - x.enqueued) / c.agingGain)) + 2 * c.maxDepth - 3 + ties
  {
    var m: nat :| m < |s.waiting| && s.waiting[m] == x;
    CountWithout(s.waiting, m, NotNewer(x));
    OvertakesBounded(c, s'.waiting, x');
  }

  /**
   * No starvation: after `pre`, any waiter `x` that is still waiting after `post` has seen at most
   * T + 2 * max_depth - 3 dispatches in `post`, and one more for each request in `post` that arrived at `x`'s own
   * clock reading. TiedArrivalsStarve shows that those do count, NoAgingStarves that the gain is needed.
   */
  lemma BoundedDispatches(c: Config, pre: seq<Event>, x: Item, post: seq<Event>)
    requires c.agingGain > 0.0 && ValidRun(c, Empty, pre)
    requires var s := Exec(c, Empty, pre);
             ValidRun(c, s, post) && x in s.waiting && x.deadline > x.enqueued && Waits(Exec(c, s, post), x.id)
    ensures var s := Exec(c, Empty, pre);
            |Exec(c, s, post).dispatched| - |s.dispatched|
            <= Max(c.maxOvertakes, Ceil((x.deadline - x.enqueued) / c.agingGain)) + 2 * c.maxDepth - 3
               + Count(post, ArrivesAt(x.enqueued))
  {
    var s := Exec(c, Empty, pre);
    ExecKeepsInv(c, Empty, pre);
    ExecKeepsInv(c, s, post);
    var s' := Exec(c, s, post);
    var x' :| x' in s'.waiting && x'.id == x.id;
    ExecCharges(c, s, x, post, x');
    ChargeBounds(c, s, x, s', x', Count(post, ArrivesAt(x.enqueued)));
  }

  // ---- Why ties and the gain matter: runs in which newcomers keep passing one waiter ----

  lemma RunOne(c: Config, s: Queue, es: seq<Event>, e: Event)
    requires ValidRun(c, s, es) && Enabled(Exec(c, s, es), e)
    ensures ValidRun(c, s, es + [e]) && Exec(c, s, es + [e]) == Step(c, Exec(c, s, es), e)
  {
    assert (es + [e])[..|es|] == es;
  }

  /** A slot, two places in the queue, and time to wait. */
  predicate Room(c: Config) {
    c.maxInflight >= 1 && c.maxDepth >= 2 && c.timeout > 0.0
  }

  /** A short interactive request with less time left than a waiter without a deadline. */
  function Rusher(c: Config, now: real): Event {
    Arrive("interactive", c.longPromptTokens - 1, Some(0.75 * c.timeout), now)
  }

  /** A waiter of any class and length that came at time 0 without a deadline. */
  function Waiter(c: Config, workloadClass: string, tokens: int, passedOver: nat): Item
    requires Room(c)
  {
    Item(c.maxInflight, workloadClass, tokens, c.timeout, 0.0, passedOver, false)
  }

  lemma RusherJumps(c: Config, id: nat, x: Item, now: real)
    requires Room(c) && 0.0 <= now <= c.timeout / 2.0 && x.deadline == c.timeout
    requires x.passedOver == 0 || c.agingGain <= 0.0
    ensures var y := NewItem(c, id, Rusher(c, now)); Before(c, y, x) && !y.cancelled && y.enqueued == now
  {
    var y := NewItem(c, id, Rusher(c, now));
    assert Credit(c, y) == 0.0;
    assert Credit(c, x) <= 0.0;
    assert y.workloadClass[0] == 'i';
  }

  lemma JumpRound(c: Config, s: Queue, x: Item, y: Item)
    requires s.inflight == c.maxInflight - 1 && s.waiting == [x, y]
    requires Before(c, y, x) && !y.cancelled
    ensures Drain(c, s) == s.(waiting := [Bump(x, y.enqueued)], inflight := c.maxInflight,
                              held := s.held + {y.id}, dispatched := s.dispatched + [y])
  {
    assert Best(c, s.waiting) == 1 by {
      assert s.waiting[1] == y && s.waiting[0] == x;
    }
    assert Without(s.waiting, 1) == [x];
    assert Age([x], y.enqueued) == [Bump(x, y.enqueued)];
    var s' := PumpOne(c, s);
    assert !CanPump(c, s');
    assert Drain(c, s) == Drain(c, s') == s';
  }

  /** A newcomer that beats the only waiter takes the slot that is released next. */
  lemma JumpStep(c: Config, s: Queue, x: Item, a: Event, h: nat)
    requires c.maxDepth >= 2 && a.Arrive?
    requires s.waiting == [x] && s.inflight == c.maxInflight && h in s.held
    requires var y := NewItem(c, s.nextId, a); Before(c, y, x) && !y.cancelled
    requires h != s.nextId
    ensures var y := NewItem(c, s.nextId, a);
            Step(c, Step(c, s, a), Release(h))
            == s.(waiting := [Bump(x, a.now)], held := s.held - {h} + {s.nextId}, dispatched := s.dispatched + [y],
                  nextId := s.nextId + 1, clock := a.now)
  {
    var y := NewItem(c, s.nextId, a);
    var s1 := Step(c, s, a);
    assert s1.waiting == [x, y] && s1.inflight == c.maxInflight && s1.held == s.held;
    JumpRound(c, s1.(held := s1.held - {h}, inflight := s1.inflight - 1), x, y);
  }

  /** `x` waits alone, every slot is busy, and `n` requests were dispatched since it came. */
  predicate Passed(c: Config, s: Queue, x: Item, n: nat, clock: real) {
    && s.waiting == [x] && s.inflight == c.maxInflight && |s.dispatched| == c.maxInflight + n
    && (exists h :: h in s.held && h < s.nextId) && s.clock == clock
  }

  ghost predicate Reaches(c: Config, es: seq<Event>, x: Item, n: nat, clock: real) {
    ValidRun(c, Empty, es) && Passed(c, Exec(c, Empty, es), x, n, clock)
  }

  /** One more request passes `x`. */
  lemma OneMorePasses(c: Config, es: seq<Event>, x: Item, n: nat, clock: real, m: nat, now: real)
    requires Room(c) && Reaches(c, es, x, n, clock) && m == n + 1 && clock <= now && 0.0 <= now <= c.timeout / 2.0
    requires x.deadline == c.timeout && (x.passedOver == 0 || c.agingGain <= 0.0)
    ensures exists fs :: Reaches(c, fs, Bump(x, now), m, now)
  {
    var s := Exec(c, Empty, es);
    var h: nat :| h in s.held && h < s.nextId;
    var a := Rusher(c, now);
    RusherJumps(c, s.nextId, x, now);
    JumpStep(c, s, x, a, h);
    RunOne(c, Empty, es, a);
    RunOne(c, Empty, es + [a], Release(h));
    var fs := es + [a] + [Release(h)];
    var s' := Exec(c, Empty, fs);
    assert s.nextId in s'.held && s.nextId < s'.nextId;
    assert Reaches(c, fs, Bump(x, now), m, now);
  }

  /** The first `k` slots are taken at time 0. */
  predicate Filled(s: Queue, k: nat) {
    && s.waiting == [] && s.inflight == k == |s.dispatched| && s.nextId == k && s.clock == 0.0
    && (k > 0 ==> 0 in s.held)
  }

  ghost predicate Fills(c: Config, es: seq<Event>, k: nat) {
    ValidRun(c, Empty, es) && Filled(Exec(c, Empty, es), k)
  }

  lemma FillOneSlot(c: Config, es: seq<Event>, k: nat)
    requires Fills(c, es, k) && k < c.maxInflight
    ensures Fills(c, es + [Rusher(c, 0.0)], k + 1)
  {
    var s, a := Exec(c, Empty, es), Rusher(c, 0.0);
    RunOne(c, Empty, es, a);
    var s' := Admit(c, s, a);
    assert s'.held == s.held + {k} && s'.nextId == k + 1 && |s'.dispatched| == |s.dispatched| + 1;
  }

  lemma {:induction false} FillSlots(c: Config, k: nat)
    requires k <= c.maxInflight
    ensures exists es :: Fills(c, es, k)
  {
    if k == 0 {
      assert Fills(c, [], 0);
    } else {
      FillSlots(c, k - 1);
      var es :| Fills(c, es, k - 1);
      FillOneSlot(c, es, k - 1);
    }
  }

  lemma WaiterComes(c: Config, workloadClass: string, tokens: int)
    requires Room(c)
    ensures exists es :: Reaches(c, es, Waiter(c, workloadClass, tokens, 0), 0, 0.0)
  {
    FillSlots(c, c.maxInflight);
    var es :| Fills(c, es, c.maxInflight);
    WaiterQueues(c, es, workloadClass, tokens, Arrive(workloadClass, tokens, None, 0.0));
  }

  lemma WaiterQueues(c: Config, es: seq<Event>, workloadClass: string, tokens: int, a: Event)
    requires Room(c) && Fills(c, es, c.maxInflight)
    requires a == Arrive(workloadClass, tokens, None, 0.0)
    ensures Reaches(c, es + [a], Waiter(c, workloadClass, tokens, 0), 0, 0.0)
  {
    var s := Exec(c, Empty, es);
    RunOne(c, Empty, es, a);
    assert 0 in s.held;
    assert NewItem(c, s.nextId, a) == Waiter(c, workloadClass, tokens, 0);
  }

  /**
   * A dispatch counts as an overtake only when the clock readings differ. Under every configuration with room, any
   * number of requests stamped with the same reading pass a waiter of any class and length, which is never overtaken.
   */
  lemma {:induction false} TiedArrivalsStarve(c: Config, workloadClass: string, tokens: int, n: nat)
    requires Room(c)
    ensures exists es :: Reaches(c, es, Waiter(c, workloadClass, tokens, 0), n, 0.0)
  {
    if n == 0 {
      WaiterComes(c, workloadClass, tokens);
    } else {
      TiedArrivalsStarve(c, workloadClass, tokens, n - 1);
      var x := Waiter(c, workloadClass, tokens, 0);
      var es :| Reaches(c, es, x, n - 1, 0.0);
      OneMorePasses(c, es, x, n - 1, 0.0, n, 0.0);
      assert Bump(x, 0.0) == x;
    }
  }

  /** Growing clock readings within the first half of the timeout. */
  function Tick(c: Config, n: nat): real {
    c.timeout / 2.0 - c.timeout / 2.0 / (n + 1) as real
  }

  lemma TickGrows(c: Config, n: nat)
    requires c.timeout > 0.0
    ensures 0.0 <= Tick(c, n) < Tick(c, n + 1) <= c.timeout / 2.0
  {
    var h, a, b := c.timeout / 2.0, (n + 1) as real, (n + 2) as real;
    SmallerShare(h, 1.0, a);
    SmallerShare(h, a, b);
  }

  lemma SmallerShare(h: real, a: real, b: real)
    requires h > 0.0 && 0.0 < a <= b
    ensures 0.0 < h / b <= h / a && (a < b ==> h / b < h / a)
  {
    var x, y := h / a, h / b;
    assert x * a == h && y * b == h;
    Quotient(x, a, h);
    Quotient(y, b, h);
    assert y * a <= y * b;
    LargerFactor(x, y, a);
    if a < b {
      assert y * a < y * b;
      LargerFactor(x, y, a);
    }
  }

  lemma Quotient(x: real, a: real, h: real)
    requires x * a == h && a > 0.0 && h > 0.0
    ensures x > 0.0
  {
  }

  lemma LargerFactor(x: real, y: real, a: real)
    requires a > 0.0
    ensures y * a <= x * a ==> y <= x
    ensures y * a < x * a ==> y < x
  {
  }

  /** Without ageing, under every configuration with room, the overtake count of any waiter grows past every bound. */
  lemma {:induction false} NoAgingStarves(c: Config, workloadClass: string, tokens: int, n: nat)
    requires Room(c) && c.agingGain <= 0.0
    ensures exists es :: Reaches(c, es, Waiter(c, workloadClass, tokens, n), n, Tick(c, n))
  {
    if n == 0 {
      WaiterComes(c, workloadClass, tokens);
      assert Tick(c, 0) == 0.0;
    } else {
      NoAgingStarves(c, workloadClass, tokens, n - 1);
      var x, now := Waiter(c, workloadClass, tokens, n - 1), Tick(c, n);
      var es :| Reaches(c, es, x, n - 1, Tick(c, n - 1));
      TickGrows(c, n - 1);
      OneMorePasses(c, es, x, n - 1, Tick(c, n - 1), n, now);
      assert Bump(x, now) == Waiter(c, workloadClass, tokens, n);
    }
  }

  /** In every run, a waiter with at most `budget` to wait is overtaken at most `bound` times. */
  ghost predicate BoundedBy(c: Config, budget: real, bound: int) {
    forall es, i :: ValidRun(c, Empty, es) && i in Exec(c, Empty, es).waiting && 0.0 < i.deadline - i.enqueued <= budget ==>
      i.passedOver <= bound
  }

  ghost predicate HasBound(c: Config, budget: real) {
    exists bound: int :: BoundedBy(c, budget, bound)
  }

  ghost predicate AlwaysBounded(c: Config) {
    forall budget: real :: HasBound(c, budget)
  }

  lemma CeilGrows(x: real, y: real, gain: real)
    requires x <= y && gain > 0.0
    ensures Ceil(x / gain) <= Ceil(y / gain)
  {
    assert x / gain <= y / gain;
  }

  lemma GainBounds(c: Config, budget: real)
    requires c.agingGain > 0.0
    ensures BoundedBy(c, budget, Max(c.maxOvertakes, Ceil(budget / c.agingGain)) + c.maxDepth - 2)
  {
    forall es, i | ValidRun(c, Empty, es) && i in Exec(c, Empty, es).waiting && 0.0 < i.deadline - i.enqueued <= budget
      ensures i.passedOver <= Max(c.maxOvertakes, Ceil(budget / c.agingGain)) + c.maxDepth - 2
    {
      BoundedOvertaking(c, es, i);
      CeilGrows(i.deadline - i.enqueued, budget, c.agingGain);
    }
  }

  /** Without room nobody is ever overtaken: no slot, no second waiter, or no live one. */
  predicate Untouched(c: Config, q: seq<Item>) {
    forall i :: 0 <= i < |q| ==> q[i].passedOver == 0 && (c.timeout <= 0.0 ==> q[i].cancelled)
  }

  lemma {:induction false} DrainUntouched(c: Config, s: Queue)
    requires !Room(c) && Slots(c, s) && Untouched(c, s.waiting)
    ensures Untouched(c, Drain(c, s).waiting)
    decreases |s.waiting|
  {
    if !CanPump(c, s) {
    } else {
      assert s.inflight >= 0;
      var k, s' := Best(c, s.waiting), PumpOne(c, s);
      assert forall i :: 0 <= i < |s.waiting| - 1 ==> Without(s.waiting, k)[i] == s.waiting[if i < k then i else i + 1];
      if c.timeout > 0.0 {
        assert |s.waiting| == 1 && s'.waiting == [];
      } else {
        assert s'.inflight == s.inflight;
        DrainUntouched(c, s');
      }
    }
  }

  lemma AdmitUntouched(c: Config, s: Queue, e: Event)
    requires e.Arrive? && Untouched(c, s.waiting)
    ensures Untouched(c, Admit(c, s, e).waiting)
  {
  }

  lemma RemoveUntouched(c: Config, q: seq<Item>, id: nat)
    requires Untouched(c, q)
    ensures Untouched(c, RemoveFirst(q, id))
  {
    var k := IndexOf(q, id);
    assert k < |q| ==> forall i :: 0 <= i < |q| - 1 ==> Without(q, k)[i] == q[if i < k then i else i + 1];
  }

  lemma StepUntouched(c: Config, s: Queue, e: Event)
    requires !Room(c) && Slots(c, s) && Untouched(c, s.waiting)
    ensures Untouched(c, Step(c, s, e).waiting)
  {
    match e
    case Arrive(_, _, _, _) => AdmitUntouched(c, s, e);
    case Expire(id) =>
    case Drop(id) => RemoveUntouched(c, s.waiting, id);
    case Release(id) =>
      if id in s.held {
        DrainUntouched(c, s.(held := s.held - {id}, inflight := s.inflight - 1));
      }
  }

  lemma {:induction false} ExecUntouched(c: Config, es: seq<Event>)
    requires !Room(c) && ValidRun(c, Empty, es)
    ensures Untouched(c, Exec(c, Empty, es).waiting)
  {
    if es == [] {
    } else {
      var front := es[..|es| - 1];
      ExecUntouched(c, front);
      ExecKeepsInv(c, Empty, front);
      StepUntouched(c, Exec(c, Empty, front), es[|es| - 1]);
    }
  }

  /** Overtakes are bounded in every run if and only if the aging gain is positive, or there is no room to overtake at all. */
  lemma OvertakesAreBoundedIff(c: Config)
    ensures AlwaysBounded(c) <==> c.agingGain > 0.0 || !Room(c)
  {
    if c.agingGain > 0.0 {
      forall budget: real
        ensures HasBound(c, budget)
      {
        GainBounds(c, budget);
      }
    } else if !Room(c) {
      forall budget: real
        ensures HasBound(c, budget)
      {
        NeverOvertaken(c, budget);
      }
    } else if HasBound(c, c.timeout) {
      var bound: int :| BoundedBy(c, c.timeout, bound);
      Unbounded(c, bound);
    }
  }

  lemma NeverOvertaken(c: Config, budget: real)
    requires !Room(c)
    ensures BoundedBy(c, budget, 0)
  {
    forall es, i | ValidRun(c, Empty, es) && i in Exec(c, Empty, es).waiting && 0.0 < i.deadline - i.enqueued <= budget
      ensures i.passedOver <= 0
    {
      ExecUntouched(c, es);
    }
  }

  lemma Unbounded(c: Config, bound: int)
    requires Room(c) && c.agingGain <= 0.0
    ensures !BoundedBy(c, c.timeout, bound)
  {
    var n: nat := Max(0, bound) + 1;
    NoAgingStarves(c, "interactive", 0, n);
    var x := Waiter(c, "interactive", 0, n);
    var es :| Reaches(c, es, x, n, Tick(c, n));
    assert x in Exec(c, Empty, es).waiting;
  }

  // ---- The in-place form ----

  /** What the first, await-free part of `acquire` answers. */
  datatype Outcome = Granted(id: nat) | QueueFull | Queued(id: nat)

  function Answer(c: Config, s: Queue): Outcome {
    if s.waiting == [] && s.inflight < c.maxInflight then Granted(s.nextId)
    else if |s.waiting| >= c.maxDepth then QueueFull
    else Queued(s.nextId)
  }

  /** History of one worker's queue, kept only to state what the code guarantees. */
  datatype History = History(held: set<nat>, dispatched: seq<Item>, clock: real)

  class WorkerQueues {
    const cfg: Config
    var waiting: map<string, seq<Item>>
    var inflight: map<string, int>
    var issued: map<string, nat>
    ghost var past: map<string, History>

    ghost function View(w: string): Queue
      reads this
    {
      var h := Get(past, w, History({}, [], 0.0));
      Queue(Get(waiting, w, []), Get(inflight, w, 0), h.held, h.dispatched, Get(issued, w, 0), h.clock)
    }

    constructor (cfg: Config)
      ensures this.cfg == cfg && forall w :: View(w) == Empty
    {
      this.cfg := cfg;
      waiting, inflight, issued, past := map[], map[], map[], map[];
    }

    ghost method Record(w: string, q: Queue)
      modifies this`past
      ensures past == old(past)[w := History(q.held, q.dispatched, q.clock)]
    {
      past := past[w := History(q.held, q.dispatched, q.clock)];
    }

    /** The new waiter; a wait of zero or less is cancelled at once. */
    method MakeItem(id: nat, workloadClass: string, tokens: int, deadline: Option<real>, now: real) returns (item: Item)
      ensures item == NewItem(cfg, id, Arrive(workloadClass, tokens, deadline, now))
    {
      var limit := cfg.timeout;
      if deadline.Some? && deadline.value - now < limit {
        limit := deadline.value - now;
      }
      item := Item(id, workloadClass, tokens,
                   if deadline.Some? then deadline.value else now + cfg.timeout,
                   now, 0, limit <= 0.0);
    }

    /** `acquire` up to its await. */
    method Acquire(w: string, workloadClass: string, tokens: int, deadline: Option<real>, now: real)
      returns (r: Outcome)
      modifies this
      ensures View(w) == Admit(cfg, old(View(w)), Arrive(workloadClass, tokens, deadline, now))
      ensures forall v :: v != w ==> View(v) == old(View(v))
      ensures r == Answer(cfg, old(View(w)))
    {
      ghost var goal := Admit(cfg, View(w), Arrive(workloadClass, tokens, deadline, now));
      Record(w, goal);
      var q := Get(waiting, w, []);
      var id := Get(issued, w, 0);
      if q == [] && Get(inflight, w, 0) < cfg.maxInflight {
        inflight := inflight[w := Get(inflight, w, 0) + 1];
        issued := issued[w := id + 1];
        r := Granted(id);
      } else if |q| >= cfg.maxDepth {
        r := QueueFull;
      } else {
        var item := MakeItem(id, workloadClass, tokens, deadline, now);
        waiting := waiting[w := q + [item]];
        issued := issued[w := id + 1];
        r := Queued(id);
      }
    }

    /** The entry of a waiter that timed out or went away is taken off the list. */
    method Remove(w: string, id: nat)
      modifies this`waiting
      ensures View(w) == Step(cfg, old(View(w)), Drop(id))
      ensures forall v :: v != w ==> View(v) == old(View(v))
    {
      var q := Get(waiting, w, []);
      var k := 0;
      while k < |q| && q[k].id != id
        invariant k <= |q| && forall i :: 0 <= i < k ==> q[i].id != id
      {
        k := k + 1;
      }
      assert k == IndexOf(q, id);
      if k < |q| {
        waiting := waiting[w := q[..k] + q[k + 1..]];
      }
    }

    method Earliest(q: seq<Item>, now: real) returns (k: nat)
      requires q != []
      ensures k == Best(cfg, q)
    {
      k := 0;
      for j := 1 to |q|
        invariant k < j && k == Best(cfg, q[..j])
      {
        assert q[..j + 1][..j] == q[..j];
        OrderIgnoresClock(cfg, q[j], q[k], now);
        if Less(KeyOf(cfg, q[j], now), KeyOf(cfg, q[k], now)) {
          k := j;
        }
      }
      assert q[..|q|] == q;
    }

    /** One more overtake for every older waiter. */
    method AgeOlder(q: seq<Item>, since: real) returns (r: seq<Item>)
      ensures r == Age(q, since)
    {
      r := q;
      for j := 0 to |q|
        invariant |r| == |q|
        invariant forall i :: 0 <= i < j ==> r[i] == Bump(q[i], since)
        invariant forall i :: j <= i < |q| ==> r[i] == q[i]
      {
        if r[j].enqueued < since {
          r := r[j := r[j].(passedOver := r[j].passedOver + 1)];
        }
      }
    }

    /** The queue and the slot count of one worker are overwritten. */
    method Store(w: string, q: seq<Item>, busy: int, ghost goal: Queue)
      requires goal == Queue(q, busy, goal.held, goal.dispatched, View(w).nextId, goal.clock)
      modifies this`waiting, this`inflight, this`past
      ensures View(w) == goal
      ensures forall v :: v != w ==> View(v) == old(View(v))
    {
      waiting := waiting[w := q];
      inflight := inflight[w := busy];
      Record(w, goal);
    }

    /** One turn of the dispatch loop; the clock is read anew each time. */
    method PumpOnce(w: string)
      requires CanPump(cfg, View(w))
      modifies this`waiting, this`inflight, this`past
      ensures View(w) == PumpOne(cfg, old(View(w)))
      ensures forall v :: v != w ==> View(v) == old(View(v))
    {
      var q := waiting[w];
      var now: real := *;
      var k := Earliest(q, now);
      ghost var goal := Take(View(w), k);
      var best := q[k];
      var rest := q[..k] + q[k + 1..];
      var busy := Get(inflight, w, 0);
      if !best.cancelled {
        rest := AgeOlder(rest, best.enqueued);
        busy := busy + 1;
      }
      Store(w, rest, busy, goal);
    }

    /** Dispatch until nobody waits or every slot is busy. */
    method Pump(w: string)
      modifies this`waiting, this`inflight, this`past
      ensures View(w) == Drain(cfg, old(View(w)))
      ensures forall v :: v != w ==> View(v) == old(View(v))
    {
      ghost var goal := Drain(cfg, View(w));
      while Get(waiting, w, []) != [] && Get(inflight, w, 0) < cfg.maxInflight
        invariant Drain(cfg, View(w)) == goal
        invariant forall v :: v != w ==> View(v) == old(View(v))
        decreases |Get(waiting, w, [])|
      {
        ghost var s := View(w);
        assert CanPump(cfg, s);
        PumpOnce(w);
      }
      assert !CanPump(cfg, View(w));
    }

    /** A slot is given back. */
    method Free(w: string, ghost id: nat)
      requires id in View(w).held
      modifies this`waiting, this`inflight, this`past
      ensures View(w) == GiveBack(cfg, old(View(w)), id)
      ensures forall v :: v != w ==> View(v) == old(View(v))
    {
      ghost var s := View(w);
      inflight := inflight[w := Get(inflight, w, 0) - 1];
      Record(w, s.(held := s.held - {id}));
      Pump(w);
    }
  }

  /** A held dispatch slot. */
  class QueueTicket {
    const queues: WorkerQueues
    const worker: string
    ghost const id: nat
    var done: bool

    constructor (queues: WorkerQueues, worker: string, ghost id: nat)
      ensures this.queues == queues && this.worker == worker && this.id == id && !done
    {
      this.queues, this.worker, this.id, this.done := queues, worker, id, false;
    }

    /** Releasing twice is releasing once. */
    method Release()
      requires !done ==> id in queues.View(worker).held
      modifies this`done, queues`waiting, queues`inflight, queues`past
      ensures done
      ensures queues.View(worker)
              == if old(done) then old(queues.View(worker)) else GiveBack(queues.cfg, old(queues.View(worker)), id)
      ensures forall v :: v != worker ==> queues.View(v) == old(queues.View(v))
    {
      if !done {
        done := true;
        queues.Free(worker, id);
      }
    }
  }
}
