/**
 * Admission and placement (services/gateway/admission.py, services/gateway/placement.py): two pure
 * functions of the same worker snapshots that have to agree.
 *
 * Random choices are parameters; times and ratios are exact.
 */
module Fleet {
  import opened Basics

  datatype Belief = Belief(tokens: int, observedAt: real)

  datatype Snapshot = Snapshot(
    id: string,
    healthy: bool,
    observedAt: Option<real>,
    running: int,
    waiting: int,
    inflight: int,
    queued: int,
    pending: int,
    inflightTokens: int,
    occupied: int,
    kvFree: real,
    prefixes: map<string, Belief>)

  /** A snapshot that was never taken is infinitely old. */
  predicate Stale(s: Snapshot, threshold: real, now: real) {
    s.observedAt.None? || now - s.observedAt.value > threshold
  }

  predicate Usable(s: Snapshot, threshold: real, now: real) {
    s.healthy && !Stale(s, threshold, now)
  }

  function UsableOnes(q: seq<Snapshot>, threshold: real, now: real): (r: seq<Snapshot>)
    ensures forall s :: s in r <==> s in q && Usable(s, threshold, now)
  {
    Filter(q, (s: Snapshot) => Usable(s, threshold, now))
  }

  // ---- Admission ----

  datatype AdmitConfig = AdmitConfig(
    maxDecodeSlots: int,
    kvFreeMin: real,
    prefillTokensPerS: real,
    waitPerWaiting: real,
    staleAfter: real,
    retryAfter: int,
    batchReserve: real)

  function Clamp(x: real): (r: real)
    ensures 0.0 <= r <= 1.0 && (0.0 <= x <= 1.0 ==> r == x)
  {
    if x < 0.0 then 0.0 else if x > 1.0 then 1.0 else x
  }

  /** Batch leaves the reserved fraction free, rounded up, but always keeps one slot. */
  function SlotLimit(cfg: AdmitConfig, workload: string): (n: int)
    ensures workload != "batch" ==> n == cfg.maxDecodeSlots
    ensures workload == "batch" ==>
              var share := if cfg.batchReserve < 0.0 then 0.0 else if cfg.batchReserve > 1.0 then 1.0 else cfg.batchReserve;
              var room := cfg.maxDecodeSlots as real - cfg.maxDecodeSlots as real * share;
              n >= 1 && (n == 1 || n as real <= room) && room < n as real + 1.0
  {
    if workload != "batch" then cfg.maxDecodeSlots
    else Max(1, cfg.maxDecodeSlots - Ceil(cfg.maxDecodeSlots as real * Clamp(cfg.batchReserve)))
  }

  function LargestFree(q: seq<Snapshot>): (m: real)
    requires q != []
    ensures (forall s :: s in q ==> s.kvFree <= m) && exists s :: s in q && s.kvFree == m
  {
    if |q| == 1 then assert q[0] in q; q[0].kvFree
    else
      var m := LargestFree(q[1..]);
      assert q == [q[0]] + q[1..];
      if q[0].kvFree > m then q[0].kvFree else m
  }

  function FewestWaiting(q: seq<Snapshot>): (m: int)
    requires q != []
    ensures (forall s :: s in q ==> s.waiting >= m) && exists s :: s in q && s.waiting == m
  {
    if |q| == 1 then assert q[0] in q; q[0].waiting
    else
      var m := FewestWaiting(q[1..]);
      assert q == [q[0]] + q[1..];
      if q[0].waiting < m then q[0].waiting else m
  }

  datatype AdmitRequest = AdmitRequest(estTokens: int, deadlineMs: Option<int>, workload: string)

  datatype Verdict = Admit | Shed(code: int, reason: string, retryAfter: int)

  function Wait(cfg: AdmitConfig, q: seq<Snapshot>): real
    requires q != []
  {
    FewestWaiting(q) as real * cfg.waitPerWaiting
  }

  function Estimate(cfg: AdmitConfig, req: AdmitRequest, q: seq<Snapshot>): real
    requires q != []
  {
    Wait(cfg, q) + req.estTokens as real / (if cfg.prefillTokensPerS > 1.0 then cfg.prefillTokensPerS else 1.0)
  }

  predicate MeetsDeadline(cfg: AdmitConfig, req: AdmitRequest, q: seq<Snapshot>)
    requires q != []
  {
    req.deadlineMs.Some? ==> Estimate(cfg, req, q) <= req.deadlineMs.value as real / 1000.0
  }

  /** `should_shed`. Accepting says exactly that some usable worker has a free slot, some has KV room, and the deadline fits. */
  function ShouldShed(req: AdmitRequest, snapshots: seq<Snapshot>, now: real, cfg: AdmitConfig): (v: Verdict)
    ensures v.Admit? <==>
              && (exists s :: s in snapshots && Usable(s, cfg.staleAfter, now) && s.kvFree >= cfg.kvFreeMin)
              && (exists s :: s in snapshots && Usable(s, cfg.staleAfter, now) && s.occupied < SlotLimit(cfg, req.workload))
              && (var q := UsableOnes(snapshots, cfg.staleAfter, now); q != [] && MeetsDeadline(cfg, req, q))
    ensures v.Shed? ==> v.code == (if v.reason == "deadline_unachievable" then 504 else 503) && v.retryAfter >= cfg.retryAfter
  {
    var eligible := UsableOnes(snapshots, cfg.staleAfter, now);
    if eligible == [] then Shed(503, "no_signal", cfg.retryAfter)
    else if LargestFree(eligible) < cfg.kvFreeMin then Shed(503, "kv_pressure", cfg.retryAfter)
    else if forall s :: s in eligible ==> s.occupied >= SlotLimit(cfg, req.workload) then
      Shed(503, "decode_slots", cfg.retryAfter)
    else if req.deadlineMs.Some? && Estimate(cfg, req, eligible) > req.deadlineMs.value as real / 1000.0 then
      Shed(504, "deadline_unachievable", Max(cfg.retryAfter, Ceil(Wait(cfg, eligible))))
    else Admit
  }

  /** Healthy, observed, and not longer ago than the threshold. */
  predicate Live(s: Snapshot, threshold: real, now: real) {
    s.healthy && s.observedAt.Some? && now - s.observedAt.value <= threshold
  }

  /** No live worker is waited for less than `m`. */
  predicate WaitsLeast(m: Snapshot, snapshots: seq<Snapshot>, threshold: real, now: real) {
    && m in snapshots && Live(m, threshold, now)
    && forall s :: s in snapshots && Live(s, threshold, now) ==> m.waiting <= s.waiting
  }

  /** Seconds until the first token, behind what waits at `m`. */
  function SecondsAt(m: Snapshot, estTokens: int, cfg: AdmitConfig): real {
    m.waiting as real * cfg.waitPerWaiting
    + estTokens as real / (if cfg.prefillTokensPerS >= 1.0 then cfg.prefillTokensPerS else 1.0)
  }

  /** The smallest whole number of seconds that is at least `floor` and not less than `x`. */
  predicate RoundsUp(n: int, floor: int, x: real) {
    n >= floor && n as real >= x && (n == floor || n as real - 1.0 < x)
  }

  predicate TooLate(m: Snapshot, req: AdmitRequest, cfg: AdmitConfig) {
    req.deadlineMs.Some? && SecondsAt(m, req.estTokens, cfg) > req.deadlineMs.value as real / 1000.0
  }

  predicate NoneHasRoom(snapshots: seq<Snapshot>, now: real, cfg: AdmitConfig) {
    forall s :: s in snapshots && Live(s, cfg.staleAfter, now) ==> s.kvFree < cfg.kvFreeMin
  }

  predicate NoneHasASlot(snapshots: seq<Snapshot>, now: real, cfg: AdmitConfig, workload: string) {
    forall s :: s in snapshots && Live(s, cfg.staleAfter, now) ==> s.occupied >= SlotLimit(cfg, workload)
  }

  /** What `should_shed` says when worker `m` is the live one with the fewest waiting. */
  predicate ShedsFor(v: Verdict, m: Snapshot, req: AdmitRequest, snapshots: seq<Snapshot>, now: real, cfg: AdmitConfig) {
    if NoneHasRoom(snapshots, now, cfg) then v == Shed(503, "kv_pressure", cfg.retryAfter)
    else if NoneHasASlot(snapshots, now, cfg, req.workload) then v == Shed(503, "decode_slots", cfg.retryAfter)
    else if TooLate(m, req, cfg) then
      && v.Shed? && v.code == 504 && v.reason == "deadline_unachievable"
      && RoundsUp(v.retryAfter, cfg.retryAfter, m.waiting as real * cfg.waitPerWaiting)
    else v == Admit
  }

  /**
   * The verdict, with its code and its retry time: no live worker; none with KV room; none with a slot; or, at the live
   * worker with the fewest waiting, a first token later than the deadline.
   */
  lemma VerdictIsExact(req: AdmitRequest, snapshots: seq<Snapshot>, now: real, cfg: AdmitConfig)
    ensures var v := ShouldShed(req, snapshots, now, cfg);
            && ((forall s :: s in snapshots ==> !Live(s, cfg.staleAfter, now)) ==> v == Shed(503, "no_signal", cfg.retryAfter))
            && ((exists s :: s in snapshots && Live(s, cfg.staleAfter, now)) ==>
                  && (exists m :: WaitsLeast(m, snapshots, cfg.staleAfter, now))
                  && forall m :: WaitsLeast(m, snapshots, cfg.staleAfter, now) ==> ShedsFor(v, m, req, snapshots, now, cfg))
  {
    var eligible := UsableOnes(snapshots, cfg.staleAfter, now);
    LiveOnes(snapshots, cfg.staleAfter, now);
    if eligible != [] {
      var least := FewestIs(eligible);
      forall s | s in snapshots && Live(s, cfg.staleAfter, now)
        ensures least.waiting <= s.waiting
      {
        assert s in eligible;
      }
      assert WaitsLeast(least, snapshots, cfg.staleAfter, now);
      forall m | WaitsLeast(m, snapshots, cfg.staleAfter, now)
        ensures ShedsFor(ShouldShed(req, snapshots, now, cfg), m, req, snapshots, now, cfg)
      {
        assert m in eligible && least in snapshots && Live(least, cfg.staleAfter, now);
        assert m.waiting == FewestWaiting(eligible);
        VerdictAt(req, snapshots, now, cfg, eligible, m);
      }
    }
  }

  lemma LiveOnes(snapshots: seq<Snapshot>, threshold: real, now: real)
    ensures forall s :: s in UsableOnes(snapshots, threshold, now) <==> s in snapshots && Live(s, threshold, now)
  {
    forall s: Snapshot
      ensures Usable(s, threshold, now) <==> Live(s, threshold, now)
    {
    }
  }

  lemma LargestIs(q: seq<Snapshot>, bound: real)
    requires q != []
    ensures LargestFree(q) < bound <==> forall s :: s in q ==> s.kvFree < bound
  {
    var m := LargestFree(q);
    assert exists s :: s in q && s.kvFree == m;
  }

  lemma FewestIs(q: seq<Snapshot>) returns (least: Snapshot)
    requires q != []
    ensures least in q && least.waiting == FewestWaiting(q) && forall s :: s in q ==> least.waiting <= s.waiting
  {
    var m := FewestWaiting(q);
    assert exists s :: s in q && s.waiting == m;
    least :| least in q && least.waiting == m;
  }

  lemma NoRoom(q: seq<Snapshot>, snapshots: seq<Snapshot>, now: real, cfg: AdmitConfig)
    requires q != [] && forall s :: s in q <==> s in snapshots && Live(s, cfg.staleAfter, now)
    ensures LargestFree(q) < cfg.kvFreeMin <==> NoneHasRoom(snapshots, now, cfg)
  {
    LargestIs(q, cfg.kvFreeMin);
    if forall s :: s in q ==> s.kvFree < cfg.kvFreeMin {
      forall s | s in snapshots && Live(s, cfg.staleAfter, now)
        ensures s.kvFree < cfg.kvFreeMin
      {
        assert s in q;
      }
    }
  }

  lemma NoSlot(q: seq<Snapshot>, snapshots: seq<Snapshot>, now: real, cfg: AdmitConfig, workload: string)
    requires forall s :: s in q <==> s in snapshots && Live(s, cfg.staleAfter, now)
    ensures (forall s :: s in q ==> s.occupied >= SlotLimit(cfg, workload)) <==> NoneHasASlot(snapshots, now, cfg, workload)
  {
    if forall s :: s in q ==> s.occupied >= SlotLimit(cfg, workload) {
      forall s | s in snapshots && Live(s, cfg.staleAfter, now)
        ensures s.occupied >= SlotLimit(cfg, workload)
      {
        assert s in q;
      }
    }
  }

  lemma VerdictAt(req: AdmitRequest, snapshots: seq<Snapshot>, now: real, cfg: AdmitConfig, eligible: seq<Snapshot>, m: Snapshot)
    requires eligible == UsableOnes(snapshots, cfg.staleAfter, now) && eligible != [] && m.waiting == FewestWaiting(eligible)
    ensures ShedsFor(ShouldShed(req, snapshots, now, cfg), m, req, snapshots, now, cfg)
  {
    LiveOnes(snapshots, cfg.staleAfter, now);
    NoRoom(eligible, snapshots, now, cfg);
    NoSlot(eligible, snapshots, now, cfg, req.workload);
    SameEstimate(m, req, cfg, eligible);
    VerdictOf(req, snapshots, now, cfg, eligible);
  }

  /** The branches of `should_shed`, without its contract. */
  lemma VerdictOf(req: AdmitRequest, snapshots: seq<Snapshot>, now: real, cfg: AdmitConfig, q: seq<Snapshot>)
    requires q == UsableOnes(snapshots, cfg.staleAfter, now) && q != []
    ensures ShouldShed(req, snapshots, now, cfg) ==
            if LargestFree(q) < cfg.kvFreeMin then Shed(503, "kv_pressure", cfg.retryAfter)
            else if forall s :: s in q ==> s.occupied >= SlotLimit(cfg, req.workload) then Shed(503, "decode_slots", cfg.retryAfter)
            else if req.deadlineMs.Some? && Estimate(cfg, req, q) > req.deadlineMs.value as real / 1000.0
            then Shed(504, "deadline_unachievable", Max(cfg.retryAfter, Ceil(Wait(cfg, q)))) else Admit
  {
  }

  lemma SameEstimate(m: Snapshot, req: AdmitRequest, cfg: AdmitConfig, q: seq<Snapshot>)
    requires q != [] && m.waiting == FewestWaiting(q)
    ensures SecondsAt(m, req.estTokens, cfg) == Estimate(cfg, req, q)
  {
  }

  // ---- Placement ----

  datatype Load = Load(unobserved: bool, amount: int)

  function LoadOf(s: Snapshot): Load {
    Load(s.observedAt.None?, 2 * s.waiting + s.running + s.inflight + s.queued + s.pending)
  }

  predicate Lighter(a: Load, b: Load) {
    if a.unobserved != b.unobserved then b.unobserved else a.amount < b.amount
  }

  /** `min(..., key=load)`: the first of the least loaded. */
  function Lightest(q: seq<Snapshot>): (s: Snapshot)
    requires q != []
    ensures s in q && forall t :: t in q ==> !Lighter(LoadOf(t), LoadOf(s))
  {
    if |q| == 1 then q[0]
    else
      var s := Lightest(q[1..]);
      assert q == [q[0]] + q[1..];
      if Lighter(LoadOf(s), LoadOf(q[0])) then s else q[0]
  }

  datatype PlacementRequest = PlacementRequest(prefixId: string, workload: string, forcedWorker: string)

  datatype Options = Options(
    policy: string,
    staleAfter: real,
    now: real,
    kvUsedMax: real,
    minKvFree: real,
    allowForced: bool,
    spillQueue: int,
    batchSlotLimit: Option<int>)

  /** Random draws: any index, and any other index. */
  datatype Draws = Draws(first: nat, second: nat)

  datatype Action = LocalReuse | DestinationHit | Recompute

  datatype Placement =
    | Decision(chosen: Snapshot, prior: Option<string>, policy: string, reason: string, reusable: int, action: Action,
               stale: bool, priorReusable: int)
    | Error(reason: string)

  /** `by_id`: the last snapshot of an id. */
  function ById(q: seq<Snapshot>, id: string): (r: Option<Snapshot>)
    ensures r.Some? <==> exists s :: s in q && s.id == id
    ensures r.Some? ==> r.value in q && r.value.id == id
  {
    if q == [] then None
    else if q[|q| - 1].id == id then assert q[|q| - 1] in q; Some(q[|q| - 1])
    else
      var front := q[..|q| - 1];
      assert q == front + [q[|q| - 1]];
      ById(front, id)
  }

  predicate Fresher(a: Belief, x: string, b: Belief, y: string) {
    b.observedAt < a.observedAt || (b.observedAt == a.observedAt && StringBefore(y, x))
  }

  /** A belief fresher than the freshest so far is fresher than all of them. */
  lemma BeatsAll(prefix: string, q: seq<Snapshot>, r: Option<Snapshot>, last: Snapshot)
    requires prefix in last.prefixes
    requires r.None? ==> forall s :: s in q ==> prefix !in s.prefixes
    requires r.Some? ==> prefix in r.value.prefixes && Fresher(last.prefixes[prefix], last.id, r.value.prefixes[prefix], r.value.id)
    requires r.Some? ==> forall s :: s in q && prefix in s.prefixes ==>
               s.prefixes[prefix].observedAt <= r.value.prefixes[prefix].observedAt
               && (s.prefixes[prefix].observedAt == r.value.prefixes[prefix].observedAt ==> !StringBefore(r.value.id, s.id))
    ensures forall s :: s in q + [last] && prefix in s.prefixes ==>
              s.prefixes[prefix].observedAt <= last.prefixes[prefix].observedAt
              && (s.prefixes[prefix].observedAt == last.prefixes[prefix].observedAt ==> !StringBefore(last.id, s.id))
  {
    StringsChain(last.id, last.id, last.id);
    if r.Some? {
      forall s | s in q && prefix in s.prefixes
        ensures !StringBefore(r.value.id, s.id) && StringBefore(r.value.id, last.id) ==> !StringBefore(last.id, s.id)
      {
        StringsChain(s.id, r.value.id, last.id);
      }
    }
  }

  /** The worker most recently believed to hold the prefix. */
  function PriorWorker(prefix: string, q: seq<Snapshot>): (r: Option<Snapshot>)
    ensures r.Some? ==> r.value in q && prefix != "" && prefix in r.value.prefixes
    ensures r.None? <==> prefix == "" || forall s :: s in q ==> prefix !in s.prefixes
    ensures r.Some? ==> forall s :: s in q && prefix in s.prefixes ==>
              s.prefixes[prefix].observedAt <= r.value.prefixes[prefix].observedAt
              && (s.prefixes[prefix].observedAt == r.value.prefixes[prefix].observedAt ==> !StringBefore(r.value.id, s.id))
  {
    if prefix == "" || q == [] then None
    else
      var front, last := q[..|q| - 1], q[|q| - 1];
      assert q == front + [last];
      var r := PriorWorker(prefix, front);
      if prefix !in last.prefixes then r
      else if r.None? || Fresher(last.prefixes[prefix], last.id, r.value.prefixes[prefix], r.value.id) then
        BeatsAll(prefix, front, r, last);
        Some(last)
      else r
  }

  function Decide(req: PlacementRequest, workers: seq<Snapshot>, stale: bool, s: Snapshot, policy: string, reason: string): (d: Placement)
    ensures d.Decision? && d.chosen == s && d.reason == reason && d.policy == policy && d.stale == stale
  {
    var holder := PriorWorker(req.prefixId, workers);
    var prior := if holder.Some? then Some(holder.value.id) else None;
    var owner := OwnerOf(req, workers);
    var known := req.prefixId != "" && req.prefixId in s.prefixes;
    Decision(s, prior, policy, reason,
             if known then s.prefixes[req.prefixId].tokens else 0,
             if !known then Recompute else if prior == Some(s.id) then LocalReuse else DestinationHit,
             stale,
             if owner.Some? && req.prefixId in owner.value.prefixes then owner.value.prefixes[req.prefixId].tokens else 0)
  }

  /** Power of two choices: two different workers are drawn, the first of the less loaded is taken. */
  function P2C(q: seq<Snapshot>, draws: Draws): (s: Snapshot)
    requires q != []
    ensures s in q
  {
    var i := draws.first % |q|;
    if |q| == 1 then q[0]
    else
      var j := (i + 1 + draws.second % (|q| - 1)) % |q|;
      Lightest([q[i], q[j]])
  }

  predicate Known(policy: string) {
    policy in {"round_robin", "least_loaded", "p2c", "prefix_then_load"}
  }

  /** Why the owner of a prefix should be left, if it should. */
  function OwnerSaturated(owner: Snapshot, kvUsedMax: real, spillQueue: int): Option<string> {
    if 1.0 - owner.kvFree >= kvUsedMax then Some("prefix_owner_kv_pressure")
    else if owner.inflightTokens >= 10000 then Some("prefix_owner_busy")
    else if owner.waiting + owner.queued + owner.pending >= spillQueue then Some("prefix_owner_saturated")
    else None
  }

  function OnlyIf(q: seq<Snapshot>, f: Snapshot -> bool): (r: seq<Snapshot>)
    requires q != []
    ensures r != [] && (forall s :: s in r ==> s in q)
    ensures (exists s :: s in q && f(s)) ==> forall s :: s in r <==> s in q && f(s)
    ensures (forall s :: s in q ==> !f(s)) ==> r == q
  {
    var kept := Filter(q, f);
    if kept == [] then
      assert forall s :: s in q ==> !(s in q && f(s)) by {
        assert forall s :: s in kept <==> s in q && f(s);
      }
      q
    else
      assert kept[0] in kept;
      kept
  }

  /** Healthy workers, the fresh ones if there are any. */
  function FreshOnes(workers: seq<Snapshot>, o: Options): (r: seq<Snapshot>)
    requires AnyHealthy(workers)
    ensures r != [] && forall s :: s in r ==> s in workers && s.healthy
  {
    var healthy := Filter(workers, (s: Snapshot) => s.healthy);
    assert healthy != [] by {
      var s :| s in workers && s.healthy;
      assert s in healthy;
    }
    OnlyIf(healthy, (s: Snapshot) => !Stale(s, o.staleAfter, o.now))
  }

  /** Of those, the ones with KV room if there are any. */
  function Preferred(workers: seq<Snapshot>, o: Options): (r: seq<Snapshot>)
    requires AnyHealthy(workers)
    ensures r != [] && forall s :: s in r ==> s in workers && s.healthy
  {
    OnlyIf(FreshOnes(workers, o), (s: Snapshot) => s.kvFree >= o.minKvFree)
  }

  function Choose(req: PlacementRequest, workers: seq<Snapshot>, eligible: seq<Snapshot>, stale: bool, o: Options,
                  rrIndex: nat, draws: Draws): (d: Placement)
    requires eligible != []
    ensures d.Decision? <==> Known(o.policy)
    ensures d.Decision? ==> d.chosen in eligible && d.stale == stale
  {
    if o.policy == "round_robin" then Decide(req, workers, stale, eligible[rrIndex % |eligible|], o.policy, "round_robin")
    else if o.policy == "least_loaded" then
      var best := LoadOf(Lightest(eligible));
      var ties := OnlyIf(eligible, (s: Snapshot) => LoadOf(s) == best);
      assert ties[draws.first % |ties|] in ties;
      Decide(req, workers, stale, ties[draws.first % |ties|], o.policy, "least_loaded")
    else if o.policy == "p2c" then Decide(req, workers, stale, P2C(eligible, draws), o.policy, "p2c")
    else if o.policy == "prefix_then_load" then Sticky(req, workers, eligible, stale, o, draws)
    else Error("unknown_policy")
  }

  function OwnerOf(req: PlacementRequest, workers: seq<Snapshot>): Option<Snapshot> {
    var holder := PriorWorker(req.prefixId, workers);
    if holder.Some? && holder.value.id != "" then ById(workers, holder.value.id) else None
  }

  /** The prefix_then_load policy. */
  function Sticky(req: PlacementRequest, workers: seq<Snapshot>, eligible: seq<Snapshot>, stale: bool, o: Options, draws: Draws): (d: Placement)
    requires eligible != []
    ensures d.Decision? && d.chosen in eligible && d.stale == stale
  {
    var owner := OwnerOf(req, workers);
    if owner.None? then Decide(req, workers, stale, P2C(eligible, draws), o.policy, "no_prefix_known")
    else if owner.value !in eligible then Decide(req, workers, stale, P2C(eligible, draws), o.policy, "prefix_owner_unavailable")
    else
      var others := Filter(eligible, (s: Snapshot) => s != owner.value);
      var why := OwnerSaturated(owner.value, o.kvUsedMax, o.spillQueue);
      if others != [] && why.Some?
         && (why.value != "prefix_owner_saturated" || Lighter(LoadOf(Lightest(others)), LoadOf(owner.value)))
      then Decide(req, workers, stale, Lightest(others), o.policy, why.value)
      else Decide(req, workers, stale, owner.value, o.policy, "prefix_affinity")
  }

  predicate IsForced(req: PlacementRequest, o: Options) {
    req.forcedWorker != "" && o.allowForced
  }

  predicate Capped(req: PlacementRequest, o: Options) {
    req.workload == "batch" && o.batchSlotLimit.Some?
  }

  predicate AnyHealthy(workers: seq<Snapshot>) {
    exists s :: s in workers && s.healthy
  }

  predicate AllStale(workers: seq<Snapshot>, o: Options) {
    forall s :: s in workers && s.healthy ==> Stale(s, o.staleAfter, o.now)
  }

  /** The workers a policy may choose from. */
  function Candidates(req: PlacementRequest, workers: seq<Snapshot>, o: Options): (r: seq<Snapshot>)
    requires AnyHealthy(workers)
    ensures !Capped(req, o) ==> r == Preferred(workers, o)
    ensures Capped(req, o) ==> forall s :: s in r <==> s in Preferred(workers, o) && s.occupied < o.batchSlotLimit.value
  {
    var preferred := Preferred(workers, o);
    if Capped(req, o) then Filter(preferred, (s: Snapshot) => s.occupied < o.batchSlotLimit.value) else preferred
  }

  /** `pick`. */
  function Pick(req: PlacementRequest, workers: seq<Snapshot>, o: Options, rrIndex: nat, draws: Draws): (d: Placement)
    ensures !IsForced(req, o) && AnyHealthy(workers) ==>
              && (d.Decision? <==> Candidates(req, workers, o) != [] && Known(o.policy))
              && (d.Decision? ==> d.chosen in Candidates(req, workers, o) && d.stale == AllStale(workers, o))
    ensures !IsForced(req, o) && !AnyHealthy(workers) ==> d == Error("no_healthy_worker")
  {
    if IsForced(req, o) then
      var forced := ById(workers, req.forcedWorker);
      if forced.None? then Error("unknown_forced_worker")
      else Decide(req, workers, false, forced.value, "forced", "forced")
    else if !AnyHealthy(workers) then Error("no_healthy_worker")
    else
      var eligible := Candidates(req, workers, o);
      if eligible == [] then Error("batch_slot_cap")
      else Choose(req, workers, eligible, AllStale(workers, o), o, rrIndex, draws)
  }

  // ---- What the two promise together ----

  /** No batch request that was not forced lands on a worker at its cap, whatever the policy and the draws. */
  lemma BatchStaysBelowItsCap(req: PlacementRequest, workers: seq<Snapshot>, o: Options, rrIndex: nat, draws: Draws, d: Placement)
    requires Capped(req, o) && !IsForced(req, o) && d == Pick(req, workers, o, rrIndex, draws) && d.Decision?
    ensures d.chosen in workers && d.chosen.healthy && d.chosen.occupied < o.batchSlotLimit.value
  {
  }

  predicate AnyUsable(workers: seq<Snapshot>, threshold: real, now: real) {
    exists s :: s in workers && Usable(s, threshold, now)
  }

  lemma AdmittedMeansUsable(a: AdmitRequest, snapshots: seq<Snapshot>, now: real, cfg: AdmitConfig)
    requires ShouldShed(a, snapshots, now, cfg).Admit?
    ensures AnyUsable(snapshots, cfg.staleAfter, now)
  {
  }

  /** An admitted request that is not batch always gets a healthy, fresh worker: admission and placement agree. */
  lemma AdmittedIsPlaced(a: AdmitRequest, req: PlacementRequest, snapshots: seq<Snapshot>, cfg: AdmitConfig, o: Options,
                         rrIndex: nat, draws: Draws, d: Placement)
    requires ShouldShed(a, snapshots, o.now, cfg).Admit? && o.staleAfter == cfg.staleAfter
    requires !IsForced(req, o) && !Capped(req, o) && Known(o.policy)
    requires d == Pick(req, snapshots, o, rrIndex, draws)
    ensures d.Decision? && d.chosen in snapshots && Live(d.chosen, cfg.staleAfter, o.now) && !d.stale
  {
    AdmittedMeansUsable(a, snapshots, o.now, cfg);
    UsableIsChosen(req, snapshots, o, rrIndex, draws, d);
  }

  lemma UsableIsChosen(req: PlacementRequest, workers: seq<Snapshot>, o: Options, rrIndex: nat, draws: Draws, d: Placement)
    requires AnyUsable(workers, o.staleAfter, o.now) && !IsForced(req, o) && !Capped(req, o) && Known(o.policy)
    requires d == Pick(req, workers, o, rrIndex, draws)
    ensures d.Decision? && d.chosen in workers && Usable(d.chosen, o.staleAfter, o.now) && !d.stale
  {
    var s :| s in workers && Usable(s, o.staleAfter, o.now);
    assert s in workers && s.healthy;
    PreferredIs(workers, o);
  }

  /** A worker that placement prefers: KV room counts as long as some live worker has it. */
  predicate IsPreferred(s: Snapshot, workers: seq<Snapshot>, o: Options) {
    && s in workers && Live(s, o.staleAfter, o.now)
    && (s.kvFree >= o.minKvFree || NoneRoomy(workers, o))
  }

  predicate NoneRoomy(workers: seq<Snapshot>, o: Options) {
    forall t :: t in workers && Live(t, o.staleAfter, o.now) ==> t.kvFree < o.minKvFree
  }

  /** A live worker; any healthy one while no healthy one is live. */
  predicate InSight(s: Snapshot, workers: seq<Snapshot>, o: Options) {
    && s in workers && s.healthy
    && (Live(s, o.staleAfter, o.now) || NoneLive(workers, o))
  }

  predicate NoneLive(workers: seq<Snapshot>, o: Options) {
    forall t :: t in workers ==> !Live(t, o.staleAfter, o.now)
  }

  predicate NoneInSightRoomy(workers: seq<Snapshot>, o: Options) {
    forall t :: t in workers && InSight(t, workers, o) ==> t.kvFree < o.minKvFree
  }

  predicate NoneOf(q: seq<Snapshot>, f: Snapshot -> bool) {
    forall t :: t in q ==> !f(t)
  }

  lemma OnlyIfIs(q: seq<Snapshot>, f: Snapshot -> bool)
    requires q != []
    ensures forall s :: s in OnlyIf(q, f) <==> s in q && (f(s) || NoneOf(q, f))
  {
    if NoneOf(q, f) {
      assert OnlyIf(q, f) == q;
    }
  }

  lemma FreshOnesAre(workers: seq<Snapshot>, o: Options)
    requires AnyHealthy(workers)
    ensures forall s :: s in FreshOnes(workers, o) <==> InSight(s, workers, o)
    ensures AllStale(workers, o) <==> NoneLive(workers, o)
  {
    var healthy, f := Filter(workers, (s: Snapshot) => s.healthy), (s: Snapshot) => !Stale(s, o.staleAfter, o.now);
    var h :| h in workers && h.healthy;
    assert h in healthy;
    OnlyIfIs(healthy, f);
    forall s: Snapshot
      ensures s.healthy && f(s) <==> Live(s, o.staleAfter, o.now)
      ensures s in healthy <==> s in workers && s.healthy
    {
    }
    assert NoneOf(healthy, f) <==> NoneLive(workers, o);
  }

  lemma PreferredAre(workers: seq<Snapshot>, o: Options)
    requires AnyHealthy(workers)
    ensures forall s :: s in Preferred(workers, o) <==>
                        InSight(s, workers, o) && (s.kvFree >= o.minKvFree || NoneInSightRoomy(workers, o))
  {
    FreshOnesAre(workers, o);
    RoomyOnesAre(workers, FreshOnes(workers, o), o);
  }

  lemma RoomyOnesAre(workers: seq<Snapshot>, seen: seq<Snapshot>, o: Options)
    requires seen != [] && forall s :: s in seen <==> InSight(s, workers, o)
    ensures forall s :: s in OnlyIf(seen, (s: Snapshot) => s.kvFree >= o.minKvFree) <==>
                        InSight(s, workers, o) && (s.kvFree >= o.minKvFree || NoneInSightRoomy(workers, o))
  {
    var g := (s: Snapshot) => s.kvFree >= o.minKvFree;
    OnlyIfIs(seen, g);
    if NoneInSightRoomy(workers, o) {
      forall s | s in seen
        ensures !g(s)
      {
        assert InSight(s, workers, o);
      }
    } else {
      var t :| t in workers && InSight(t, workers, o) && t.kvFree >= o.minKvFree;
      assert t in seen && g(t);
    }
  }

  /** An admitted batch request is placed if and only if a worker that placement prefers is below the cap. */
  lemma AdmittedBatchIsPlacedIff(a: AdmitRequest, req: PlacementRequest, snapshots: seq<Snapshot>, cfg: AdmitConfig, o: Options,
                                 rrIndex: nat, draws: Draws, d: Placement)
    requires ShouldShed(a, snapshots, o.now, cfg).Admit? && o.staleAfter == cfg.staleAfter
    requires !IsForced(req, o) && Capped(req, o) && Known(o.policy) && d == Pick(req, snapshots, o, rrIndex, draws)
    ensures d.Decision? <==> exists s :: IsPreferred(s, snapshots, o) && s.occupied < o.batchSlotLimit.value
    ensures d.Decision? ==> IsPreferred(d.chosen, snapshots, o) && d.chosen.occupied < o.batchSlotLimit.value
  {
    AdmittedMeansUsable(a, snapshots, o.now, cfg);
    CappedIsChosenIff(req, snapshots, o, rrIndex, draws, d);
  }

  lemma CappedIsChosenIff(req: PlacementRequest, workers: seq<Snapshot>, o: Options, rrIndex: nat, draws: Draws, d: Placement)
    requires AnyUsable(workers, o.staleAfter, o.now) && !IsForced(req, o) && Capped(req, o) && Known(o.policy)
    requires d == Pick(req, workers, o, rrIndex, draws)
    ensures d.Decision? <==> exists s :: IsPreferred(s, workers, o) && s.occupied < o.batchSlotLimit.value
    ensures d.Decision? ==> IsPreferred(d.chosen, workers, o) && d.chosen.occupied < o.batchSlotLimit.value
  {
    PreferredIs(workers, o);
    var c := Candidates(req, workers, o);
    assert c != [] ==> c[0] in c;
  }

  lemma PreferredIs(workers: seq<Snapshot>, o: Options)
    requires AnyUsable(workers, o.staleAfter, o.now)
    ensures AnyHealthy(workers) && !AllStale(workers, o)
    ensures forall s :: s in Preferred(workers, o) <==> IsPreferred(s, workers, o)
  {
    var u :| u in workers && Usable(u, o.staleAfter, o.now);
    assert u in workers && u.healthy && Live(u, o.staleAfter, o.now);
    PreferredAre(workers, o);
    forall s: Snapshot
      ensures InSight(s, workers, o) <==> s in workers && Live(s, o.staleAfter, o.now)
    {
    }
    assert NoneInSightRoomy(workers, o) <==> NoneRoomy(workers, o);
  }

  /** Two workers: one with free slots and little KV room, one with KV room and no free slot. */
  const Roomy: Snapshot := Snapshot("a", true, Some(0.0), 0, 0, 0, 0, 0, 0, 0, 0.15, map[])
  const Full: Snapshot := Snapshot("b", true, Some(0.0), 9, 0, 0, 0, 0, 0, 9, 0.9, map[])

  const BatchConfig: AdmitConfig := AdmitConfig(4, 0.1, 4000.0, 0.25, 5.0, 1, 0.25)

  function BatchOptions(policy: string): Options {
    Options(policy, BatchConfig.staleAfter, 0.0, 0.7, 0.2, false, 4, Some(SlotLimit(BatchConfig, "batch")))
  }

  lemma RoomyIsEnough()
    ensures ShouldShed(AdmitRequest(0, None, "batch"), [Roomy, Full], 0.0, BatchConfig).Admit?
    ensures SlotLimit(BatchConfig, "batch") == 3
  {
    var q := [Roomy, Full];
    assert Roomy in q && Usable(Roomy, 5.0, 0.0);
    assert Roomy in UsableOnes(q, 5.0, 0.0);
  }

  /** A batch request can be admitted for the room on one worker and refused because placement prefers another. */
  lemma AdmittedBatchCanBeRefused(policy: string, rrIndex: nat, draws: Draws)
    ensures ShouldShed(AdmitRequest(0, None, "batch"), [Roomy, Full], 0.0, BatchConfig).Admit?
    ensures Pick(PlacementRequest("", "batch", ""), [Roomy, Full], BatchOptions(policy), rrIndex, draws) == Error("batch_slot_cap")
  {
    var q, o := [Roomy, Full], BatchOptions(policy);
    RoomyIsEnough();
    OnlyFullIsPreferred(policy);
    PreferredIs(q, o);
    var c := Candidates(PlacementRequest("", "batch", ""), q, o);
    if c != [] {
      HasFirst(c);
    }
    NoCandidates(PlacementRequest("", "batch", ""), q, o, rrIndex, draws);
  }

  lemma OnlyFullIsPreferred(policy: string)
    ensures AnyUsable([Roomy, Full], 5.0, 0.0)
    ensures forall s :: IsPreferred(s, [Roomy, Full], BatchOptions(policy)) ==> s == Full
  {
    var q := [Roomy, Full];
    assert Full in q && Roomy in q;
    assert Usable(Roomy, 5.0, 0.0) && Usable(Full, 5.0, 0.0);
    assert !NoneRoomy(q, BatchOptions(policy));
    assert forall s :: s in q ==> s == Roomy || s == Full;
  }

  lemma HasFirst(q: seq<Snapshot>)
    requires q != []
    ensures q[0] in q
  {
  }

  lemma NoCandidates(req: PlacementRequest, workers: seq<Snapshot>, o: Options, rrIndex: nat, draws: Draws)
    requires !IsForced(req, o) && AnyHealthy(workers) && Candidates(req, workers, o) == []
    ensures Pick(req, workers, o, rrIndex, draws) == Error("batch_slot_cap")
  {
  }

  // ---- What a pick is ----

  /** In sight, with KV room unless none in sight has it, and below the cap if the request is batch. */
  predicate MayBePicked(s: Snapshot, req: PlacementRequest, workers: seq<Snapshot>, o: Options) {
    && InSight(s, workers, o)
    && (s.kvFree >= o.minKvFree || NoneInSightRoomy(workers, o))
    && (req.workload == "batch" && o.batchSlotLimit.Some? ==> s.occupied < o.batchSlotLimit.value)
  }

  lemma CandidatesAre(req: PlacementRequest, workers: seq<Snapshot>, o: Options)
    requires AnyHealthy(workers)
    ensures forall s :: s in Candidates(req, workers, o) <==> MayBePicked(s, req, workers, o)
  {
    PreferredAre(workers, o);
  }

  /** Holder `h` of the prefix has the latest observation, and of those the greatest id. */
  predicate HoldsLatest(h: Snapshot, prefix: string, workers: seq<Snapshot>) {
    && h in workers && prefix != "" && prefix in h.prefixes
    && forall s :: s in workers && prefix in s.prefixes ==>
         && s.prefixes[prefix].observedAt <= h.prefixes[prefix].observedAt
         && (s.prefixes[prefix].observedAt == h.prefixes[prefix].observedAt ==> !Precedes(h.id, s.id))
  }

  /** The decision names the holder of the prefix, and what the chosen worker can reuse of it. */
  predicate Describes(d: Placement, req: PlacementRequest, workers: seq<Snapshot>)
    requires d.Decision?
  {
    var p := req.prefixId;
    var known := p != "" && p in d.chosen.prefixes;
    && (d.prior.None? <==> p == "" || forall s :: s in workers ==> p !in s.prefixes)
    && (d.prior.Some? ==> exists h :: h in workers && h.id == d.prior.value && HoldsLatest(h, p, workers))
    && (!known ==> d.reusable == 0 && d.action == Recompute)
    && (known ==> d.reusable == d.chosen.prefixes[p].tokens
                  && d.action == if d.prior == Some(d.chosen.id) then LocalReuse else DestinationHit)
  }

  lemma DecideDescribes(req: PlacementRequest, workers: seq<Snapshot>, stale: bool, s: Snapshot, policy: string, reason: string)
    ensures Describes(Decide(req, workers, stale, s, policy, reason), req, workers)
  {
    var holder := PriorWorker(req.prefixId, workers);
    if holder.Some? {
      var h := holder.value;
      forall t | t in workers && req.prefixId in t.prefixes
        ensures t.prefixes[req.prefixId].observedAt == h.prefixes[req.prefixId].observedAt ==> !Precedes(h.id, t.id)
      {
        StringsCompare(h.id, t.id);
      }
      assert HoldsLatest(h, req.prefixId, workers);
    }
  }

  /**
   * Every pick that is not forced: no healthy worker, nobody who may be picked, an unknown policy, or a decision for
   * somebody who may be, marked stale exactly when no worker is live. A forced pick takes the worker with that id, if any.
   */
  lemma PickIsExact(req: PlacementRequest, workers: seq<Snapshot>, o: Options, rrIndex: nat, draws: Draws)
    ensures var d := Pick(req, workers, o, rrIndex, draws);
            && (d.Decision? ==> Describes(d, req, workers))
            && (if req.forcedWorker != "" && o.allowForced then
                  if exists s :: s in workers && s.id == req.forcedWorker
                  then d.Decision? && d.chosen in workers && d.chosen.id == req.forcedWorker && d.reason == "forced" && !d.stale
                  else d == Error("unknown_forced_worker")
                else if forall s :: s in workers ==> !s.healthy then d == Error("no_healthy_worker")
                else if forall s :: !MayBePicked(s, req, workers, o) then d == Error("batch_slot_cap")
                else if !(o.policy in {"round_robin", "least_loaded", "p2c", "prefix_then_load"}) then d == Error("unknown_policy")
                else
                  && d.Decision? && MayBePicked(d.chosen, req, workers, o) && d.policy == o.policy
                  && (d.stale <==> NoneLive(workers, o)))
  {
    var d := Pick(req, workers, o, rrIndex, draws);
    if d.Decision? {
      PickDescribes(req, workers, o, rrIndex, draws);
    }
    if !IsForced(req, o) && AnyHealthy(workers) {
      CandidatesAre(req, workers, o);
      FreshOnesAre(workers, o);
      var c := Candidates(req, workers, o);
      if c != [] {
        HasFirst(c);
        ChooseIsKnown(req, workers, c, AllStale(workers, o), o, rrIndex, draws);
      }
    }
  }

  lemma ChooseIsKnown(req: PlacementRequest, workers: seq<Snapshot>, eligible: seq<Snapshot>, stale: bool, o: Options,
                      rrIndex: nat, draws: Draws)
    requires eligible != []
    ensures var d := Choose(req, workers, eligible, stale, o, rrIndex, draws);
            if Known(o.policy) then d.Decision? && d.policy == o.policy && Describes(d, req, workers) else d == Error("unknown_policy")
  {
    var d := Choose(req, workers, eligible, stale, o, rrIndex, draws);
    if d.Decision? {
      ChooseDecides(req, workers, eligible, stale, o, rrIndex, draws, d);
      DecideDescribes(req, workers, stale, d.chosen, o.policy, d.reason);
    }
  }

  /** Whatever the policy, the decision is described from the worker it takes. */
  lemma ChooseDecides(req: PlacementRequest, workers: seq<Snapshot>, eligible: seq<Snapshot>, stale: bool, o: Options,
                      rrIndex: nat, draws: Draws, d: Placement)
    requires eligible != [] && d == Choose(req, workers, eligible, stale, o, rrIndex, draws) && d.Decision?
    ensures d == Decide(req, workers, stale, d.chosen, o.policy, d.reason)
  {
    if o.policy == "prefix_then_load" {
      StickyDecides(req, workers, eligible, stale, o, draws);
    }
  }

  lemma StickyDecides(req: PlacementRequest, workers: seq<Snapshot>, eligible: seq<Snapshot>, stale: bool, o: Options, draws: Draws)
    requires eligible != []
    ensures var d := Sticky(req, workers, eligible, stale, o, draws); d == Decide(req, workers, stale, d.chosen, o.policy, d.reason)
  {
  }

  lemma PickDescribes(req: PlacementRequest, workers: seq<Snapshot>, o: Options, rrIndex: nat, draws: Draws)
    requires Pick(req, workers, o, rrIndex, draws).Decision?
    ensures Describes(Pick(req, workers, o, rrIndex, draws), req, workers)
  {
    var d := Pick(req, workers, o, rrIndex, draws);
    if IsForced(req, o) {
      DecideDescribes(req, workers, false, d.chosen, "forced", "forced");
    } else {
      ChooseIsKnown(req, workers, Candidates(req, workers, o), AllStale(workers, o), o, rrIndex, draws);
    }
  }

  // ---- Policies ----

  /** Waiting requests count twice; a worker that was never observed comes last. */
  predicate LessLoaded(s: Snapshot, t: Snapshot) {
    || (s.observedAt.Some? && t.observedAt.None?)
    || ((s.observedAt.Some? <==> t.observedAt.Some?)
        && s.waiting + s.waiting + s.running + s.inflight + s.queued + s.pending
           < t.waiting + t.waiting + t.running + t.inflight + t.queued + t.pending)
  }

  /** round_robin: n successive turns reach each of n candidates. */
  lemma RoundRobinReachesAll(req: PlacementRequest, workers: seq<Snapshot>, eligible: seq<Snapshot>, stale: bool, o: Options,
                             start: nat, draws: Draws, k: nat)
    requires k < |eligible| && o.policy == "round_robin"
    ensures exists turn: nat :: start <= turn < start + |eligible|
                                && Choose(req, workers, eligible, stale, o, turn, draws).chosen == eligible[k]
  {
    var n, m := |eligible|, start % |eligible|;
    var turn := if k >= m then start + k - m else start + k - m + n;
    Cycle(start, n, k, turn);
    assert Choose(req, workers, eligible, stale, o, turn, draws).chosen == eligible[k];
  }

  lemma Cycle(start: nat, n: nat, k: nat, turn: nat)
    requires k < n && turn == if k >= start % n then start + k - start % n else start + k - start % n + n
    ensures turn % n == k && start <= turn < start + n
  {
    var q := start / n;
    assert start == q * n + start % n;
    var c := if k >= start % n then q else q + 1;
    assert turn == c * n + k;
    Remainder(c, n, k);
  }

  lemma Remainder(c: nat, n: nat, k: nat)
    requires k < n
    ensures (c * n + k) % n == k
  {
    var x := c * n + k;
    var d, r := x / n, x % n;
    assert x == d * n + r;
    assert (d - c) * n == k - r;
    if d > c {
      Multiple(d - c, n);
    } else if d < c {
      Multiple(c - d, n);
    }
  }

  lemma Multiple(a: int, n: nat)
    requires a >= 1
    ensures a * n >= n
  {
  }

  /** least_loaded takes a worker than which no candidate is less loaded. */
  lemma LeastLoadedIsLightest(req: PlacementRequest, workers: seq<Snapshot>, eligible: seq<Snapshot>, stale: bool, o: Options,
                              rrIndex: nat, draws: Draws, t: Snapshot)
    requires eligible != [] && o.policy == "least_loaded" && t in eligible
    ensures !LessLoaded(t, Choose(req, workers, eligible, stale, o, rrIndex, draws).chosen)
  {
    var light := Lightest(eligible);
    var f := (s: Snapshot) => LoadOf(s) == LoadOf(light);
    assert f(light);
    var ties := OnlyIf(eligible, f);
    var s := ties[draws.first % |ties|];
    assert s in ties;
    assert Choose(req, workers, eligible, stale, o, rrIndex, draws).chosen == s;
    assert !Lighter(LoadOf(t), LoadOf(s));
  }

  /** Two choices: unless there is only one candidate, some other candidate is not less loaded than the one taken. */
  lemma P2CBeatsAnother(q: seq<Snapshot>, draws: Draws)
    requires |q| >= 2
    ensures exists i, j :: 0 <= i < |q| && 0 <= j < |q| && i != j && P2C(q, draws) == q[i] && !LessLoaded(q[j], q[i])
  {
    var i := draws.first % |q|;
    var k := 1 + draws.second % (|q| - 1);
    var j := (i + k) % |q|;
    WrapsElsewhere(i, k, |q|);
    var s := P2C(q, draws);
    assert s == Lightest([q[i], q[j]]) && [q[i], q[j]][0] == q[i] && [q[i], q[j]][1] == q[j];
    assert q[i] in [q[i], q[j]] && q[j] in [q[i], q[j]];
    assert s == q[i] || s == q[j];
    assert forall a, b :: !Lighter(LoadOf(a), LoadOf(b)) ==> !LessLoaded(a, b);
  }

  lemma WrapsElsewhere(i: nat, k: nat, n: nat)
    requires i < n && 1 <= k < n
    ensures (i + k) % n != i && 0 <= (i + k) % n < n
  {
    assert (i + k) % n == if i + k < n then i + k else i + k - n;
  }

  /** The owner of a prefix is out of KV or has too much in flight. */
  predicate Overloaded(owner: Snapshot, o: Options) {
    1.0 - owner.kvFree >= o.kvUsedMax || owner.inflightTokens >= 10000
  }

  predicate HasLongQueue(owner: Snapshot, o: Options) {
    owner.waiting + owner.queued + owner.pending >= o.spillQueue
  }

  /** Candidate `t` may take over from the owner. */
  predicate TakesOver(t: Snapshot, owner: Snapshot, eligible: seq<Snapshot>, o: Options) {
    && t in eligible && t != owner
    && (Overloaded(owner, o) || (HasLongQueue(owner, o) && LessLoaded(t, owner)))
  }

  /**
   * A conversation leaves an available prefix owner exactly when the owner is out of KV or has too much in flight and
   * another candidate exists, or its queue is long and another candidate is less loaded; it then goes to a least loaded
   * other candidate.
   */
  lemma OwnerIsLeftIff(req: PlacementRequest, workers: seq<Snapshot>, eligible: seq<Snapshot>, stale: bool, o: Options, draws: Draws, owner: Snapshot)
    requires eligible != [] && OwnerOf(req, workers) == Some(owner) && owner in eligible
    ensures var s := Sticky(req, workers, eligible, stale, o, draws).chosen;
            && (s != owner <==> exists t :: TakesOver(t, owner, eligible, o))
            && (s != owner ==> TakesOver(s, owner, eligible, o) && forall t :: t in eligible && t != owner ==> !LessLoaded(t, s))
  {
    var others := Filter(eligible, (s: Snapshot) => s != owner);
    StickyTakes(req, workers, eligible, stale, o, draws, owner, others);
    if others != [] {
      LightestTakesOver(eligible, others, owner, o);
    } else {
      forall t
        ensures !TakesOver(t, owner, eligible, o)
      {
        assert t in others <==> t in eligible && t != owner;
      }
    }
  }

  lemma LighterMeans(a: Snapshot, b: Snapshot)
    ensures Lighter(LoadOf(a), LoadOf(b)) <==> LessLoaded(a, b)
  {
  }

  /** If anybody may take over, the lightest of the others may. */
  lemma LightestTakesOver(eligible: seq<Snapshot>, others: seq<Snapshot>, owner: Snapshot, o: Options)
    requires others != [] && forall t :: t in others <==> t in eligible && t != owner
    ensures var light := Lightest(others);
            && light in eligible && light != owner
            && (forall t :: t in eligible && t != owner ==> !LessLoaded(t, light))
            && forall t :: TakesOver(t, owner, eligible, o) ==> TakesOver(light, owner, eligible, o)
  {
    var light := Lightest(others);
    forall t | t in eligible && t != owner
      ensures !LessLoaded(t, light)
    {
      assert t in others;
      LighterMeans(t, light);
    }
  }

  /** The reason to leave the owner, with the comparison of loads where only its queue is long. */
  predicate LeavesFor(light: Snapshot, owner: Snapshot, o: Options) {
    var why := OwnerSaturated(owner, o.kvUsedMax, o.spillQueue);
    why.Some? && (why.value != "prefix_owner_saturated" || Lighter(LoadOf(light), LoadOf(owner)))
  }

  lemma LeavingMeans(light: Snapshot, owner: Snapshot, eligible: seq<Snapshot>, o: Options)
    requires light in eligible && light != owner
    ensures LeavesFor(light, owner, o) <==> TakesOver(light, owner, eligible, o)
  {
    LighterMeans(light, owner);
    assert "prefix_owner_busy" != "prefix_owner_saturated" && "prefix_owner_kv_pressure" != "prefix_owner_saturated" by {
      assert |"prefix_owner_busy"| == 17 && |"prefix_owner_saturated"| == 22 && |"prefix_owner_kv_pressure"| == 24;
    }
  }

  lemma StickyChooses(req: PlacementRequest, workers: seq<Snapshot>, eligible: seq<Snapshot>, stale: bool, o: Options, draws: Draws,
                      owner: Snapshot, others: seq<Snapshot>)
    requires eligible != [] && OwnerOf(req, workers) == Some(owner) && owner in eligible
    requires others == Filter(eligible, (s: Snapshot) => s != owner)
    ensures Sticky(req, workers, eligible, stale, o, draws).chosen
            == if others != [] && LeavesFor(Lightest(others), owner, o) then Lightest(others) else owner
  {
  }

  /** The conversation goes to the lightest of the others if that one may take over, and stays otherwise. */
  lemma StickyTakes(req: PlacementRequest, workers: seq<Snapshot>, eligible: seq<Snapshot>, stale: bool, o: Options, draws: Draws,
                    owner: Snapshot, others: seq<Snapshot>)
    requires eligible != [] && OwnerOf(req, workers) == Some(owner) && owner in eligible
    requires others == Filter(eligible, (s: Snapshot) => s != owner)
    ensures Sticky(req, workers, eligible, stale, o, draws).chosen
            == if others != [] && TakesOver(Lightest(others), owner, eligible, o) then Lightest(others) else owner
  {
    StickyChooses(req, workers, eligible, stale, o, draws, owner, others);
    if others != [] {
      assert Lightest(others) in others;
      LeavingMeans(Lightest(others), owner, eligible, o);
    }
  }

  /** Why the owner was left or kept: the first reason that holds, in this order. */
  lemma OwnerReasons(req: PlacementRequest, workers: seq<Snapshot>, eligible: seq<Snapshot>, stale: bool, o: Options, draws: Draws, owner: Snapshot)
    requires eligible != [] && OwnerOf(req, workers) == Some(owner) && owner in eligible
    ensures var d := Sticky(req, workers, eligible, stale, o, draws);
            d.reason == if d.chosen == owner then "prefix_affinity"
                        else if 1.0 - owner.kvFree >= o.kvUsedMax then "prefix_owner_kv_pressure"
                        else if owner.inflightTokens >= 10000 then "prefix_owner_busy"
                        else "prefix_owner_saturated"
  {
    var others := Filter(eligible, (s: Snapshot) => s != owner);
    assert forall t :: t in others <==> t in eligible && t != owner;
  }

  /** The owner is the worker that holds the prefix latest; without one in reach, two candidates are compared. */
  lemma OwnerIsPrior(req: PlacementRequest, workers: seq<Snapshot>, eligible: seq<Snapshot>, stale: bool, o: Options, draws: Draws)
    requires eligible != []
    ensures var owner, d := OwnerOf(req, workers), Sticky(req, workers, eligible, stale, o, draws);
            && (owner.Some? ==> owner.value in workers && d.prior == Some(owner.value.id))
            && (owner.None? ==> (d.prior.None? || d.prior == Some("")) && d.reason == "no_prefix_known")
            && (owner.Some? && owner.value !in eligible ==> d.reason == "prefix_owner_unavailable")
            && (owner.None? || owner.value !in eligible ==> d.chosen == P2C(eligible, draws))
  {
  }
}
