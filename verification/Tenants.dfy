/**
 * The sliding-window tenant quota of services/gateway/tenants.py.
 *
 * One bucket is specified by value, with a log of every lease ever granted; the classes at the end
 * are the in-place form. Whatever leases are refunded, and however late, the tokens granted in any
 * window and not refunded stay within the budget.
 */
module Tenants {
  import opened Basics

  datatype Config = Config(budget: int, window: real, maxConcurrency: int)

  datatype Entry = Entry(at: real, tokens: int)

  datatype Bucket = Bucket(window: seq<Entry>, tokens: int, active: int)

  const NoBucket: Bucket := Bucket([], 0, 0)

  /** Entries at or before the horizon are dropped from the front. */
  function Prune(b: Bucket, horizon: real): Bucket
    decreases |b.window|
  {
    if b.window != [] && b.window[0].at <= horizon
    then Prune(b.(window := b.window[1..], tokens := b.tokens - b.window[0].tokens), horizon)
    else b
  }

  datatype Verdict = Accept | TenantConcurrency | TenantTokens(retryAfter: int)

  function Judge(c: Config, b: Bucket, tokens: int, now: real): Verdict {
    if b.active >= c.maxConcurrency then TenantConcurrency
    else if b.tokens + tokens > c.budget then
      TenantTokens(if b.window == [] then 1 else Max(Ceil(b.window[0].at + c.window - now), 1))
    else Accept
  }

  function Charge(b: Bucket, e: Entry): Bucket {
    Bucket(b.window + [e], b.tokens + e.tokens, b.active + 1)
  }

  function Admit(c: Config, b: Bucket, tokens: int, now: real): (Bucket, Verdict) {
    var p := Prune(b, now - c.window);
    var v := Judge(c, p, tokens, now);
    (if v.Accept? then Charge(p, Entry(now, tokens)) else p, v)
  }

  /** Waiting for the advertised time lets the oldest entry expire. */
  lemma RetryFreesOldest(c: Config, b: Bucket, tokens: int, now: real, later: real)
    requires var (b', v) := Admit(c, b, tokens, now);
             v.TenantTokens? && b'.window != [] && later >= now + v.retryAfter as real
    ensures var (b', v) := Admit(c, b, tokens, now);
            v.retryAfter >= 1 && |Prune(b', later - c.window).window| < |b'.window|
  {
    var b' := Admit(c, b, tokens, now).0;
    PruneShrinks(b'.(window := b'.window[1..], tokens := b'.tokens - b'.window[0].tokens), later - c.window);
  }

  lemma {:induction false} PruneShrinks(b: Bucket, horizon: real)
    ensures |Prune(b, horizon).window| <= |b.window|
    decreases |b.window|
  {
    if b.window != [] && b.window[0].at <= horizon {
      PruneShrinks(b.(window := b.window[1..], tokens := b.tokens - b.window[0].tokens), horizon);
    }
  }

  function Position(w: seq<Entry>, e: Entry): (k: nat)
    ensures k <= |w| && (k < |w| ==> w[k] == e) && (k == |w| ==> e !in w)
  {
    if w == [] || w[0] == e then 0 else 1 + Position(w[1..], e)
  }

  /** A released lease gives its slot back; a refund also removes one equal entry, if still there. */
  function Return(b: Bucket, e: Entry, refund: bool): Bucket {
    var b' := b.(active := b.active - 1);
    var k := Position(b.window, e);
    if refund && k < |b.window| then b'.(window := Without(b.window, k), tokens := b.tokens - e.tokens) else b'
  }

  // ---- Histories ----

  /** A lease in the log, with what has become of it. */
  datatype Grant = Grant(entry: Entry, released: bool, refunded: bool)

  /** `clock` is the time of the last request for a lease. */
  datatype State = State(bucket: Bucket, log: seq<Grant>, clock: real)

  function Init(start: real): State {
    State(NoBucket, [], start)
  }

  datatype Event =
    | Acquire(tokens: nat, now: real)
    | Release(lease: nat, refund: bool)

  function Granted(s: State, tokens: int): State {
    var e := Entry(s.clock, tokens);
    State(Charge(s.bucket, e), s.log + [Grant(e, false, false)], s.clock)
  }

  function Step(c: Config, s: State, e: Event): State {
    match e
    case Acquire(tokens, now) =>
      var s' := State(Prune(s.bucket, now - c.window), s.log, now);
      if Judge(c, s'.bucket, tokens, now).Accept? then Granted(s', tokens) else s'
    case Release(l, refund) =>
      if l < |s.log| && !s.log[l].released then
        State(Return(s.bucket, s.log[l].entry, refund),
              s.log[l := s.log[l].(released := true, refunded := refund)], s.clock)
      else s
  }

  predicate Enabled(s: State, e: Event) {
    e.Acquire? ==> e.now >= s.clock
  }

  function Exec(c: Config, s: State, es: seq<Event>): State {
    if es == [] then s else Step(c, Exec(c, s, es[..|es| - 1]), es[|es| - 1])
  }

  predicate ValidRun(c: Config, s: State, es: seq<Event>) {
    es == [] ||
    var front := es[..|es| - 1];
    ValidRun(c, s, front) && Enabled(Exec(c, s, front), es[|es| - 1])
  }

  // ---- What is charged ----

  function Tokens(): Entry -> int {
    (x: Entry) => x.tokens
  }

  function After(horizon: real): Entry -> int {
    (x: Entry) => if x.at > horizon then x.tokens else 0
  }

  function Is(e: Entry): Entry -> int {
    (x: Entry) => if x == e then 1 else 0
  }

  /** A lease weighs as much as its entry until it is refunded. */
  function Unrefunded(f: Entry -> int): Grant -> int {
    (g: Grant) => if g.refunded then 0 else f(g.entry)
  }

  function Live(): Grant -> int {
    (g: Grant) => if g.released then 0 else 1
  }

  /** Tokens granted after `horizon` and not refunded. */
  function Spent(log: seq<Grant>, horizon: real): int {
    Weigh(log, Unrefunded(After(horizon)))
  }

  predicate Sorted(w: seq<Entry>) {
    forall i, j :: 0 <= i < j < |w| ==> w[i].at <= w[j].at
  }

  predicate Within(w: seq<Entry>, lo: real, hi: real) {
    forall i :: 0 <= i < |w| ==> lo < w[i].at <= hi && w[i].tokens >= 0
  }

  predicate SameSum(w: seq<Entry>, log: seq<Grant>, h: real) {
    Weigh(w, After(h)) == Spent(log, h)
  }

  predicate SameCount(w: seq<Entry>, log: seq<Grant>, e: Entry) {
    Weigh(w, Is(e)) == Weigh(log, Unrefunded(Is(e)))
  }

  /** The window and the log agree on every sum and on every entry, from the horizon on. */
  ghost predicate Coupled(w: seq<Entry>, log: seq<Grant>, horizon: real) {
    && (forall h :: h >= horizon ==> SameSum(w, log, h))
    && (forall e: Entry :: e.at > horizon ==> SameCount(w, log, e))
  }

  ghost predicate Inv(c: Config, s: State) {
    && Coupled(s.bucket.window, s.log, s.clock - c.window)
    && Sorted(s.bucket.window) && Within(s.bucket.window, s.clock - c.window, s.clock)
    && s.bucket.tokens == Weigh(s.bucket.window, Tokens()) <= Max(0, c.budget)
    && s.bucket.active == Weigh(s.log, Live()) <= Max(0, c.maxConcurrency)
    && RefundedAreReleased(s.log)
  }

  lemma {:induction false} OccursIffWeighs(w: seq<Entry>, e: Entry)
    ensures Weigh(w, Is(e)) >= 0 && (Weigh(w, Is(e)) > 0 <==> e in w)
  {
    if w == [] {
    } else {
      OccursIffWeighs(w[..|w| - 1], e);
      assert w == w[..|w| - 1] + [w[|w| - 1]];
    }
  }

  lemma {:induction false} WeighDropFirst(w: seq<Entry>, f: Entry -> int)
    requires w != []
    ensures Weigh(w, f) == f(w[0]) + Weigh(w[1..], f)
  {
    assert Without(w, 0) == w[1..];
    WeighWithout(w, 0, f);
  }

  /** Pruning drops exactly the expired entries, takes their tokens off, and changes no later sum. */
  lemma {:induction false} PruneIsExact(b: Bucket, horizon: real, lo: real, hi: real, log: seq<Grant>)
    requires Sorted(b.window) && Within(b.window, lo, hi) && b.tokens == Weigh(b.window, Tokens())
    requires Coupled(b.window, log, horizon)
    ensures var p := Prune(b, horizon);
            && Sorted(p.window) && Within(p.window, if lo > horizon then lo else horizon, hi)
            && p.tokens == Weigh(p.window, Tokens()) <= b.tokens && p.active == b.active
            && Coupled(p.window, log, horizon)
    decreases |b.window|
  {
    var w := b.window;
    if w != [] && w[0].at <= horizon {
      var b' := b.(window := w[1..], tokens := b.tokens - w[0].tokens);
      WeighDropFirst(w, Tokens());
      DropKeepsCoupled(w, log, horizon);
      PruneIsExact(b', horizon, lo, hi, log);
      assert Prune(b, horizon) == Prune(b', horizon);
    }
  }

  lemma DropKeepsCoupled(w: seq<Entry>, log: seq<Grant>, horizon: real)
    requires w != [] && w[0].at <= horizon && Coupled(w, log, horizon)
    ensures Coupled(w[1..], log, horizon)
  {
    forall h | h >= horizon
      ensures SameSum(w[1..], log, h)
    {
      assert SameSum(w, log, h);
      WeighDropFirst(w, After(h));
    }
    forall e: Entry | e.at > horizon
      ensures SameCount(w[1..], log, e)
    {
      assert SameCount(w, log, e);
      WeighDropFirst(w, Is(e));
    }
  }

  lemma AppendKeepsCoupled(w: seq<Entry>, log: seq<Grant>, horizon: real, e: Entry)
    requires Coupled(w, log, horizon)
    ensures Coupled(w + [e], log + [Grant(e, false, false)], horizon)
  {
    var g := Grant(e, false, false);
    forall h | h >= horizon
      ensures SameSum(w + [e], log + [g], h)
    {
      assert SameSum(w, log, h);
      WeighAppend(w, e, After(h));
      WeighAppend(log, g, Unrefunded(After(h)));
    }
    forall x: Entry | x.at > horizon
      ensures SameCount(w + [e], log + [g], x)
    {
      assert SameCount(w, log, x);
      WeighAppend(w, e, Is(x));
      WeighAppend(log, g, Unrefunded(Is(x)));
    }
  }

  lemma CoupledLater(w: seq<Entry>, log: seq<Grant>, h: real, later: real)
    requires Coupled(w, log, h) && h <= later
    ensures Coupled(w, log, later)
  {
  }

  lemma WithinLater(w: seq<Entry>, lo: real, hi: real, later: real)
    requires Within(w, lo, hi) && hi <= later
    ensures Within(w, lo, later)
  {
  }

  lemma PruneKeepsWindow(c: Config, s: State, now: real, p: Bucket)
    requires Inv(c, s) && now >= s.clock && p == Prune(s.bucket, now - c.window)
    ensures Coupled(p.window, s.log, now - c.window)
    ensures Sorted(p.window) && Within(p.window, now - c.window, now)
    ensures p.tokens == Weigh(p.window, Tokens()) <= s.bucket.tokens && p.active == s.bucket.active
  {
    var h := now - c.window;
    CoupledLater(s.bucket.window, s.log, s.clock - c.window, h);
    PruneIsExact(s.bucket, h, s.clock - c.window, s.clock, s.log);
    WithinLater(p.window, h, s.clock, now);
  }

  lemma PruneKeepsInv(c: Config, s: State, now: real)
    requires Inv(c, s) && now >= s.clock
    ensures Inv(c, State(Prune(s.bucket, now - c.window), s.log, now))
  {
    PruneKeepsWindow(c, s, now, Prune(s.bucket, now - c.window));
  }

  lemma AppendKeepsWindow(w: seq<Entry>, e: Entry, lo: real)
    requires Sorted(w) && Within(w, lo, e.at) && lo < e.at && e.tokens >= 0
    ensures Sorted(w + [e]) && Within(w + [e], lo, e.at)
  {
    var w' := w + [e];
    forall i | 0 <= i < |w'|
      ensures lo < w'[i].at <= e.at && w'[i].tokens >= 0
    {
      assert w'[i] == if i < |w| then w[i] else e;
    }
    forall i, j | 0 <= i < j < |w'|
      ensures w'[i].at <= w'[j].at
    {
      assert w'[i] == w[i];
      assert w'[j] == if j < |w| then w[j] else e;
    }
  }

  lemma GrantKeepsWindow(c: Config, s: State, e: Entry, s': State)
    requires c.window > 0.0 && Inv(c, s) && e.at == s.clock && e.tokens >= 0 && s' == Granted(s, e.tokens)
    ensures Coupled(s'.bucket.window, s'.log, s'.clock - c.window)
    ensures Sorted(s'.bucket.window) && Within(s'.bucket.window, s'.clock - c.window, s'.clock)
  {
    AppendKeepsCoupled(s.bucket.window, s.log, s.clock - c.window, e);
    AppendKeepsWindow(s.bucket.window, e, s.clock - c.window);
  }

  predicate RefundedAreReleased(log: seq<Grant>) {
    forall i :: 0 <= i < |log| ==> log[i].refunded ==> log[i].released
  }

  lemma GrantKeepsCounts(b: Bucket, log: seq<Grant>, e: Entry)
    requires b.tokens == Weigh(b.window, Tokens()) && b.active == Weigh(log, Live()) && RefundedAreReleased(log)
    ensures Charge(b, e).tokens == Weigh(Charge(b, e).window, Tokens())
    ensures Charge(b, e).active == Weigh(log + [Grant(e, false, false)], Live())
    ensures RefundedAreReleased(log + [Grant(e, false, false)])
  {
    WeighAppend(b.window, e, Tokens());
    WeighAppend(log, Grant(e, false, false), Live());
  }

  lemma GrantKeepsInv(c: Config, s: State, tokens: nat)
    requires c.window > 0.0 && Inv(c, s)
    requires s.bucket.active < c.maxConcurrency && s.bucket.tokens + tokens <= c.budget
    ensures Inv(c, Granted(s, tokens))
  {
    var e, s' := Entry(s.clock, tokens), Granted(s, tokens);
    GrantKeepsWindow(c, s, e, s');
    GrantKeepsCounts(s.bucket, s.log, e);
  }

  lemma AcquireIs(c: Config, s: State, e: Event, s': State)
    requires e.Acquire? && s' == State(Prune(s.bucket, e.now - c.window), s.log, e.now)
    ensures Step(c, s, e) == if Judge(c, s'.bucket, e.tokens, e.now).Accept? then Granted(s', e.tokens) else s'
  {
  }

  lemma AcquireKeepsInv(c: Config, s: State, e: Event, next: State)
    requires c.window > 0.0 && e.Acquire? && Inv(c, s) && Enabled(s, e) && next == Step(c, s, e)
    ensures Inv(c, next)
  {
    PruneKeepsInv(c, s, e.now);
    var s' := State(Prune(s.bucket, e.now - c.window), s.log, e.now);
    AcquireIs(c, s, e, s');
    if Judge(c, s'.bucket, e.tokens, e.now).Accept? {
      GrantKeepsInv(c, s', e.tokens);
    }
  }

  /** Refunding lease `l` takes one entry equal to its own from the window, or none if it expired. */
  lemma RefundKeepsCoupled(w: seq<Entry>, log: seq<Grant>, horizon: real, l: nat, g: Grant)
    requires Coupled(w, log, horizon) && l < |log| && !log[l].refunded
    requires g.entry == log[l].entry && g.refunded
    requires forall i :: 0 <= i < |w| ==> w[i].at > horizon
    ensures var k := Position(w, g.entry);
            && (k < |w| <==> g.entry.at > horizon)
            && Coupled(if k < |w| then Without(w, k) else w, log[l := g], horizon)
  {
    var e := g.entry;
    var k := Position(w, e);
    if e.at > horizon {
      assert SameCount(w, log, e);
      OccursIffWeighs(w, e);
      ChargedOccurs(log, l);
    }
    var w', log' := if k < |w| then Without(w, k) else w, log[l := g];
    forall h | h >= horizon
      ensures SameSum(w', log', h)
    {
      assert SameSum(w, log, h);
      WeighUpdate(log, l, g, Unrefunded(After(h)));
      if k < |w| {
        WeighWithout(w, k, After(h));
      }
    }
    forall x: Entry | x.at > horizon
      ensures SameCount(w', log', x)
    {
      assert SameCount(w, log, x);
      WeighUpdate(log, l, g, Unrefunded(Is(x)));
      if k < |w| {
        WeighWithout(w, k, Is(x));
      }
    }
  }

  lemma ChargedOccurs(log: seq<Grant>, l: nat)
    requires l < |log| && !log[l].refunded
    ensures Weigh(log, Unrefunded(Is(log[l].entry))) > 0
  {
    var f := Unrefunded(Is(log[l].entry));
    WeighWithout(log, l, f);
    WeighNonNegative(Without(log, l), f);
  }

  lemma KeepKeepsCoupled(w: seq<Entry>, log: seq<Grant>, horizon: real, l: nat, g: Grant)
    requires Coupled(w, log, horizon) && l < |log|
    requires g.entry == log[l].entry && g.refunded == log[l].refunded
    ensures Coupled(w, log[l := g], horizon)
  {
    var log' := log[l := g];
    forall h | h >= horizon
      ensures SameSum(w, log', h)
    {
      assert SameSum(w, log, h);
      WeighUpdate(log, l, g, Unrefunded(After(h)));
    }
    forall x: Entry | x.at > horizon
      ensures SameCount(w, log', x)
    {
      assert SameCount(w, log, x);
      WeighUpdate(log, l, g, Unrefunded(Is(x)));
    }
  }

  lemma WithoutKeepsWindow(w: seq<Entry>, k: nat, lo: real, hi: real)
    requires k < |w| && Sorted(w) && Within(w, lo, hi)
    ensures Sorted(Without(w, k)) && Within(Without(w, k), lo, hi)
    ensures Weigh(Without(w, k), Tokens()) == Weigh(w, Tokens()) - w[k].tokens
  {
    assert forall i :: 0 <= i < |w| - 1 ==> Without(w, k)[i] == w[if i < k then i else i + 1];
    WeighWithout(w, k, Tokens());
  }

  /** The release of lease `l`, which becomes `g`, with or without an entry to refund. */
  lemma ReleaseKeepsWindow(c: Config, s: State, l: nat, g: Grant)
    requires Inv(c, s) && l < |s.log| && !s.log[l].refunded && g.entry == s.log[l].entry
    ensures var b := Return(s.bucket, g.entry, g.refunded);
            && Coupled(b.window, s.log[l := g], s.clock - c.window)
            && Sorted(b.window) && Within(b.window, s.clock - c.window, s.clock)
            && b.tokens == Weigh(b.window, Tokens()) <= Max(0, c.budget)
  {
    var w, h := s.bucket.window, s.clock - c.window;
    if !g.refunded {
      KeepKeepsCoupled(w, s.log, h, l, g);
    } else {
      RefundKeepsCoupled(w, s.log, h, l, g);
      if Position(w, g.entry) < |w| {
        WithoutKeepsWindow(w, Position(w, g.entry), h, s.clock);
      }
    }
  }

  lemma ReleaseKeepsInv(c: Config, s: State, e: Event)
    requires e.Release? && Inv(c, s)
    ensures Inv(c, Step(c, s, e))
  {
    var l := e.lease;
    if l < |s.log| && !s.log[l].released {
      var g := s.log[l].(released := true, refunded := e.refund);
      WeighUpdate(s.log, l, g, Live());
      ReleaseKeepsWindow(c, s, l, g);
    }
  }

  lemma {:induction false} ExecKeepsInv(c: Config, start: real, es: seq<Event>)
    requires c.window > 0.0 && ValidRun(c, Init(start), es)
    ensures Inv(c, Exec(c, Init(start), es))
  {
    if es == [] {
    } else {
      var front, e := es[..|es| - 1], es[|es| - 1];
      ExecKeepsInv(c, start, front);
      var s := Exec(c, Init(start), front);
      match e
      case Acquire(_, _) => AcquireKeepsInv(c, s, e, Step(c, s, e));
      case Release(_, _) => ReleaseKeepsInv(c, s, e);
    }
  }

  lemma StateIsSafe(c: Config, s: State, t: real)
    requires Inv(c, s) && t >= s.clock
    ensures Spent(s.log, t - c.window) <= Max(0, c.budget)
  {
    assert SameSum(s.bucket.window, s.log, t - c.window);
    WeighMono(s.bucket.window, After(t - c.window), Tokens());
  }

  predicate AllGrantedBy(log: seq<Grant>, t: real) {
    forall i :: 0 <= i < |log| ==> log[i].entry.at <= t
  }

  lemma StepGrantsByNow(c: Config, s: State, e: Event, s': State)
    requires Enabled(s, e) && AllGrantedBy(s.log, s.clock) && s' == Step(c, s, e)
    ensures AllGrantedBy(s'.log, s'.clock)
  {
    if e.Acquire? {
      AcquireIs(c, s, e, State(Prune(s.bucket, e.now - c.window), s.log, e.now));
    }
  }

  lemma {:induction false} GrantedByNow(c: Config, start: real, es: seq<Event>)
    requires ValidRun(c, Init(start), es)
    ensures AllGrantedBy(Exec(c, Init(start), es).log, Exec(c, Init(start), es).clock)
  {
    if es == [] {
    } else {
      var front, e := es[..|es| - 1], es[|es| - 1];
      GrantedByNow(c, start, front);
      var s := Exec(c, Init(start), front);
      StepGrantsByNow(c, s, e, Step(c, s, e));
    }
  }

  /**
   * Sliding-window safety: at every moment `t` of every history, the tokens granted in
   * (t - window, t] and not refunded by then fit the budget.
   */
  lemma WindowSafety(c: Config, start: real, es: seq<Event>, t: real)
    requires ValidRun(c, Init(start), es) && t >= Exec(c, Init(start), es).clock
    ensures Spent(Exec(c, Init(start), es).log, t - c.window) <= Max(0, c.budget)
  {
    var s := Exec(c, Init(start), es);
    if c.window > 0.0 {
      ExecKeepsInv(c, start, es);
      StateIsSafe(c, s, t);
    } else {
      GrantedByNow(c, start, es);
      WeighZero(s.log, Unrefunded(After(t - c.window)));
    }
  }

  lemma SumIsSpent(w: seq<Entry>, lo: real, hi: real)
    requires Within(w, lo, hi)
    ensures Weigh(w, After(lo)) == Weigh(w, Tokens())
  {
    WeighSame(w, After(lo), Tokens());
  }

  /** The counters are exact: `tokens` is what is charged in the window, `active` the leases out. */
  lemma CountersExact(c: Config, start: real, es: seq<Event>)
    requires c.window > 0.0 && ValidRun(c, Init(start), es)
    ensures var s := Exec(c, Init(start), es);
            && s.bucket.tokens == Spent(s.log, s.clock - c.window)
            && s.bucket.active == Weigh(s.log, Live()) <= Max(0, c.maxConcurrency)
  {
    ExecKeepsInv(c, start, es);
    CountersAre(c, Exec(c, Init(start), es));
  }

  lemma CountersAre(c: Config, s: State)
    requires Inv(c, s)
    ensures s.bucket.tokens == Spent(s.log, s.clock - c.window)
    ensures s.bucket.active == Weigh(s.log, Live()) <= Max(0, c.maxConcurrency)
  {
    assert SameSum(s.bucket.window, s.log, s.clock - c.window);
    SumIsSpent(s.bucket.window, s.clock - c.window, s.clock);
  }

  /** Lease `i` is charged to the window after `horizon`. */
  predicate Charged(log: seq<Grant>, i: nat, horizon: real) {
    i < |log| && !log[i].refunded && log[i].entry.at > horizon
  }

  ghost predicate NothingIsCharged(log: seq<Grant>, horizon: real) {
    forall i: nat :: !Charged(log, i, horizon)
  }

  ghost predicate IsOldest(log: seq<Grant>, i: nat, horizon: real) {
    Charged(log, i, horizon) && forall j: nat :: Charged(log, j, horizon) ==> log[i].entry.at <= log[j].entry.at
  }

  /** The first whole number of seconds, at least one, after which a lease granted at `at` is out of the window. */
  predicate FirstRetry(c: Config, at: real, now: real, r: int) {
    r >= 1 && at <= now + r as real - c.window && (r == 1 || at > now + (r - 1) as real - c.window)
  }

  lemma EntryIsCharged(log: seq<Grant>, e: Entry)
    ensures Weigh(log, Unrefunded(Is(e))) > 0 <==> exists i :: 0 <= i < |log| && !log[i].refunded && log[i].entry == e
  {
    if i :| 0 <= i < |log| && !log[i].refunded && log[i].entry == e {
      ChargedOccurs(log, i);
    } else {
      WeighZero(log, Unrefunded(Is(e)));
    }
  }

  /** The entries of the window are those of the charged leases. */
  lemma WindowIsCharged(w: seq<Entry>, log: seq<Grant>, horizon: real, e: Entry)
    requires Coupled(w, log, horizon) && e.at > horizon
    ensures e in w <==> exists i :: 0 <= i < |log| && !log[i].refunded && log[i].entry == e
  {
    assert SameCount(w, log, e);
    OccursIffWeighs(w, e);
    EntryIsCharged(log, e);
  }

  lemma FirstIsOldest(w: seq<Entry>, log: seq<Grant>, horizon: real, hi: real)
    requires Coupled(w, log, horizon) && Sorted(w) && Within(w, horizon, hi)
    ensures w == [] <==> NothingIsCharged(log, horizon)
    ensures forall i: nat :: IsOldest(log, i, horizon) ==> w != [] && log[i].entry.at == w[0].at
    ensures w != [] ==> exists i: nat :: IsOldest(log, i, horizon)
  {
    forall i: nat | Charged(log, i, horizon)
      ensures w != [] && w[0].at <= log[i].entry.at
    {
      WindowIsCharged(w, log, horizon, log[i].entry);
      var k :| 0 <= k < |w| && w[k] == log[i].entry;
    }
    if w != [] {
      assert w[0] in w;
      WindowIsCharged(w, log, horizon, w[0]);
      var i: nat :| i < |log| && !log[i].refunded && log[i].entry == w[0];
      assert Charged(log, i, horizon) && IsOldest(log, i, horizon);
    }
  }

  /** The window `w` after pruning, in terms of the leases granted. */
  lemma PrunedMeans(c: Config, s: State, now: real, h: real, p: Bucket)
    requires c.window > 0.0 && Inv(c, s) && now >= s.clock && h == now - c.window && p == Prune(s.bucket, h)
    ensures p.tokens == Spent(s.log, h) && p.active == Weigh(s.log, Live())
    ensures Coupled(p.window, s.log, h) && Sorted(p.window) && Within(p.window, h, now)
  {
    PruneKeepsWindow(c, s, now, p);
    assert SameSum(p.window, s.log, h);
    SumIsSpent(p.window, h, now);
  }

  /** The advertised time is right for the oldest lease charged after `h`, or one second if none is. */
  ghost predicate Advertises(c: Config, log: seq<Grant>, h: real, now: real, r: int) {
    if NothingIsCharged(log, h) then r == 1
    else exists i: nat :: IsOldest(log, i, h) && FirstRetry(c, log[i].entry.at, now, r)
  }

  lemma RetryIsRight(c: Config, log: seq<Grant>, h: real, now: real, p: Bucket, tokens: int)
    requires Coupled(p.window, log, h) && Sorted(p.window) && Within(p.window, h, now)
    requires Judge(c, p, tokens, now).TenantTokens?
    ensures Advertises(c, log, h, now, Judge(c, p, tokens, now).retryAfter)
  {
    FirstIsOldest(p.window, log, h, now);
    if p.window != [] {
      var i: nat :| IsOldest(log, i, h);
      assert FirstRetry(c, log[i].entry.at, now, Judge(c, p, tokens, now).retryAfter);
    }
  }

  /** The answer `v` to a request for these tokens, and the log after it, in terms of the leases granted before. */
  ghost predicate Decides(c: Config, log: seq<Grant>, h: real, tokens: nat, now: real, v: Verdict, log': seq<Grant>) {
    var free, fits := Weigh(log, Live()) < c.maxConcurrency, Spent(log, h) + tokens <= c.budget;
    && (v == Accept <==> free && fits) && (v == TenantConcurrency <==> !free)
    && (v.TenantTokens? ==> Advertises(c, log, h, now, v.retryAfter))
    && log' == if free && fits then log + [Grant(Entry(now, tokens), false, false)] else log
  }

  /**
   * A lease is granted exactly when fewer than the maximum are out and the tokens, with those granted in the window and
   * not refunded, fit the budget. A refusal for tokens names the first whole second at which the oldest charged lease
   * has left the window, or one second if none is charged; a refusal changes no lease.
   */
  lemma {:induction false} GrantedIff(c: Config, start: real, es: seq<Event>, s: State, tokens: nat, now: real, h: real)
    requires c.window > 0.0 && ValidRun(c, Init(start), es) && s == Exec(c, Init(start), es)
    requires now >= s.clock && h == now - c.window
    ensures Decides(c, s.log, h, tokens, now, Admit(c, s.bucket, tokens, now).1, Step(c, s, Acquire(tokens, now)).log)
  {
    ExecKeepsInv(c, start, es);
    StateDecides(c, s, tokens, now, h);
  }

  lemma StateDecides(c: Config, s: State, tokens: nat, now: real, h: real)
    requires c.window > 0.0 && Inv(c, s) && now >= s.clock && h == now - c.window
    ensures Decides(c, s.log, h, tokens, now, Admit(c, s.bucket, tokens, now).1, Step(c, s, Acquire(tokens, now)).log)
  {
    var p := Prune(s.bucket, h);
    PrunedMeans(c, s, now, h, p);
    JudgedAs(c, s, tokens, now, h, p);
  }

  lemma JudgedAs(c: Config, s: State, tokens: nat, now: real, h: real, p: Bucket)
    requires h == now - c.window && p == Prune(s.bucket, h)
    requires p.tokens == Spent(s.log, h) && p.active == Weigh(s.log, Live())
    requires Coupled(p.window, s.log, h) && Sorted(p.window) && Within(p.window, h, now)
    ensures Decides(c, s.log, h, tokens, now, Admit(c, s.bucket, tokens, now).1, Step(c, s, Acquire(tokens, now)).log)
  {
    var v := Judge(c, p, tokens, now);
    AcquireIs(c, s, Acquire(tokens, now), State(p, s.log, now));
    assert Admit(c, s.bucket, tokens, now).1 == v;
    if v.TenantTokens? {
      RetryIsRight(c, s.log, h, now, p, tokens);
    }
  }

  /** No request for tokens can be granted: no budget or no lease. */
  predicate Closed(c: Config) {
    c.budget < 1 || c.maxConcurrency < 1
  }

  predicate NothingCharged(c: Config, s: State) {
    && s.bucket.tokens == 0 && (forall i :: 0 <= i < |s.bucket.window| ==> s.bucket.window[i].tokens == 0)
    && (forall i :: 0 <= i < |s.log| ==> s.log[i].entry.tokens == 0)
    && (c.maxConcurrency < 1 ==> s.log == [] && s.bucket.active == 0)
  }

  lemma {:induction false} PruneChargesNothing(b: Bucket, horizon: real)
    requires b.tokens == 0 && forall i :: 0 <= i < |b.window| ==> b.window[i].tokens == 0
    ensures var p := Prune(b, horizon);
            p.tokens == 0 && p.active == b.active && forall i :: 0 <= i < |p.window| ==> p.window[i].tokens == 0
    decreases |b.window|
  {
    if b.window == [] || b.window[0].at > horizon {
    } else {
      PruneChargesNothing(b.(window := b.window[1..], tokens := b.tokens - b.window[0].tokens), horizon);
    }
  }

  lemma AcquireChargesNothing(c: Config, s: State, e: Event, s': State)
    requires Closed(c) && e.Acquire? && NothingCharged(c, s) && s' == Step(c, s, e)
    ensures NothingCharged(c, s')
  {
    PruneChargesNothing(s.bucket, e.now - c.window);
    AcquireIs(c, s, e, State(Prune(s.bucket, e.now - c.window), s.log, e.now));
  }

  lemma ReleaseChargesNothing(c: Config, s: State, e: Event, s': State)
    requires e.Release? && NothingCharged(c, s) && s' == Step(c, s, e)
    ensures NothingCharged(c, s')
  {
    if e.lease < |s.log| {
      var w, k := s.bucket.window, Position(s.bucket.window, s.log[e.lease].entry);
      assert k < |w| ==> forall i :: 0 <= i < |w| - 1 ==> Without(w, k)[i] == w[if i < k then i else i + 1];
    }
  }

  lemma {:induction false} ExecChargesNothing(c: Config, start: real, es: seq<Event>)
    requires Closed(c) && ValidRun(c, Init(start), es)
    ensures NothingCharged(c, Exec(c, Init(start), es))
  {
    if es == [] {
    } else {
      var front, e := es[..|es| - 1], es[|es| - 1];
      ExecChargesNothing(c, start, front);
      var s := Exec(c, Init(start), front);
      match e
      case Acquire(_, _) => AcquireChargesNothing(c, s, e, Step(c, s, e));
      case Release(_, _) => ReleaseChargesNothing(c, s, e, Step(c, s, e));
    }
  }

  ghost predicate TokensAlwaysExact(c: Config) {
    forall start, es :: ValidRun(c, Init(start), es) ==>
      Exec(c, Init(start), es).bucket.tokens == Spent(Exec(c, Init(start), es).log, Exec(c, Init(start), es).clock - c.window)
  }

  /** `tokens` is exact in every history if and only if the window is positive or no tokens are ever granted. */
  lemma TokensAreExactIff(c: Config)
    ensures TokensAlwaysExact(c) <==> c.window > 0.0 || Closed(c)
  {
    if c.window > 0.0 || Closed(c) {
      forall start, es | ValidRun(c, Init(start), es)
        ensures var s := Exec(c, Init(start), es); s.bucket.tokens == Spent(s.log, s.clock - c.window)
      {
        if c.window > 0.0 {
          CountersExact(c, start, es);
        } else {
          ExecChargesNothing(c, start, es);
          var s := Exec(c, Init(start), es);
          WeighZero(s.log, Unrefunded(After(s.clock - c.window)));
        }
      }
    } else {
      EmptyWindowOvercounts(c);
    }
  }

  /** With an empty window a fresh grant is charged until the next request, although it lies in no window. */
  lemma EmptyWindowOvercounts(c: Config)
    requires c.window <= 0.0 && !Closed(c)
    ensures var es := [Acquire(1, 0.0)]; var s := Exec(c, Init(0.0), es);
            ValidRun(c, Init(0.0), es) && s.bucket.tokens == 1 && Spent(s.log, s.clock - c.window) == 0
  {
    var es, s0 := [Acquire(1, 0.0)], Init(0.0);
    assert es[..|es| - 1] == [];
    assert ValidRun(c, s0, []) && Exec(c, s0, []) == s0;
    var s := Exec(c, s0, es);
    AcquireIs(c, s0, Acquire(1, 0.0), s0);
    assert s == Step(c, s0, Acquire(1, 0.0)) == Granted(s0, 1);
    WeighZero(s.log, Unrefunded(After(s.clock - c.window)));
  }

  // ---- The in-place form ----

  class BucketCell {
    var window: seq<Entry>
    var tokens: int
    var active: int

    ghost function View(): Bucket
      reads this
    {
      Bucket(window, tokens, active)
    }

    constructor ()
      ensures View() == NoBucket
    {
      window, tokens, active := [], 0, 0;
    }

    /** Entries at or before the horizon leave the window, with their tokens. */
    method Expire(horizon: real)
      modifies this
      ensures View() == Prune(old(View()), horizon)
    {
      ghost var goal := Prune(View(), horizon);
      while window != [] && window[0].at <= horizon
        invariant Prune(View(), horizon) == goal
        decreases |window|
      {
        tokens := tokens - window[0].tokens;
        window := window[1..];
      }
    }
  }

  class Lease {
    var bucket: BucketCell?
    const entry: Entry

    constructor (bucket: BucketCell, entry: Entry)
      ensures this.bucket == bucket && this.entry == entry
    {
      this.bucket, this.entry := bucket, entry;
    }

    /** Releasing twice is releasing once, with the first call's refund flag. */
    method Release(refund: bool)
      modifies this, bucket
      ensures bucket == null
      ensures old(bucket) != null ==> old(bucket).View() == Return(old(bucket.View()), entry, refund)
    {
      var b := bucket;
      if b == null {
        return;
      }
      b.active := b.active - 1;
      bucket := null;
      if refund && entry in b.window {
        var k := 0;
        while b.window[k] != entry
          invariant k < |b.window| && forall i :: 0 <= i < k ==> b.window[i] != entry
          invariant exists i :: k <= i < |b.window| && b.window[i] == entry
          decreases |b.window| - k
        {
          k := k + 1;
        }
        PositionIs(b.window, entry, k);
        b.window := Without(b.window, k);
        b.tokens := b.tokens - entry.tokens;
      }
    }
  }

  lemma {:induction false} PositionIs(w: seq<Entry>, e: Entry, k: nat)
    requires k < |w| && w[k] == e && forall i :: 0 <= i < k ==> w[i] != e
    ensures Position(w, e) == k
  {
    if k == 0 {
    } else {
      PositionIs(w[1..], e, k - 1);
    }
  }

  datatype Admission = Admitted(lease: Lease) | Refused(verdict: Verdict)

  class TenantQuota {
    const cfg: Config
    const allowlist: set<string>
    var buckets: map<string, BucketCell>

    ghost predicate Valid()
      reads this
    {
      forall m, n :: m in buckets && n in buckets && m != n ==> buckets[m] != buckets[n]
    }

    ghost function View(name: string): Bucket
      reads this, buckets.Values
    {
      if name in buckets then buckets[name].View() else NoBucket
    }

    constructor (cfg: Config, allowlist: set<string>)
      ensures Valid() && this.cfg == cfg && this.allowlist == allowlist && buckets == map[]
    {
      this.cfg, this.allowlist := cfg, allowlist;
      buckets := map[];
    }

    /** Unknown and missing tenants share one bucket. */
    function BucketName(tenant: Option<string>): string {
      if tenant.Some? && tenant.value in allowlist then tenant.value else "other"
    }

    method Acquire(tenant: Option<string>, tokens: int, now: real) returns (r: Admission)
      requires Valid()
      modifies this, buckets.Values
      ensures Valid()
      ensures var name := BucketName(tenant);
              && name in buckets
              && View(name) == Admit(cfg, old(View(name)), tokens, now).0
              && (match Admit(cfg, old(View(name)), tokens, now).1
                  case Accept => r.Admitted? && r.lease.bucket == buckets[name] && r.lease.entry == Entry(now, tokens)
                  case v => r == Refused(v))
      ensures forall n :: n != BucketName(tenant) ==> View(n) == old(View(n))
    {
      var name := BucketName(tenant);
      if name !in buckets {
        var cell := new BucketCell();
        buckets := buckets[name := cell];
      }
      var b := buckets[name];
      b.Expire(now - cfg.window);
      var v := Judge(cfg, Bucket(b.window, b.tokens, b.active), tokens, now);
      if v.Accept? {
        var entry := Entry(now, tokens);
        b.window := b.window + [entry];
        b.tokens := b.tokens + tokens;
        b.active := b.active + 1;
        var lease := new Lease(b, entry);
        r := Admitted(lease);
      } else {
        r := Refused(v);
      }
    }
  }
}
