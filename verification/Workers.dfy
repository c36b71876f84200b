/**
 * Worker snapshots and the warm gate of services/gateway/workers.py.
 *
 * Occupancy: with the documented assumption on what a scrape counts, `occupied` never misses a live
 * dispatch. Warm gate: a worker is warm only after enough good scrapes in a row and a probe that
 * began and ended in the current health epoch.
 */
module Workers {
  import opened Basics

  // ---- Occupancy ----

  /** `recent` maps the token of every unfinished dispatch to the time it was made. */
  datatype Load = Load(running: int, observedAt: Option<real>, recent: map<nat, real>, lastToken: nat)

  predicate Counted(l: Load, grace: real, at: real) {
    l.observedAt.None? || at > l.observedAt.value - grace
  }

  function Young(l: Load, grace: real): (s: set<nat>)
    ensures s <= l.recent.Keys
  {
    set t | t in l.recent && Counted(l, grace, l.recent[t])
  }

  /** The dispatches the last scrape is trusted to have seen. */
  function Old(l: Load, grace: real): (s: set<nat>)
    ensures s <= l.recent.Keys
  {
    set t | t in l.recent && !Counted(l, grace, l.recent[t])
  }

  function Occupied(l: Load, grace: real): int {
    l.running + |Young(l, grace)|
  }

  datatype LoadEvent = Dispatched(now: real) | FinishedToken(token: nat) | Scraped(running: int, now: real)

  function LoadStep(l: Load, e: LoadEvent): Load {
    match e
    case Dispatched(now) => l.(recent := l.recent[l.lastToken + 1 := now], lastToken := l.lastToken + 1)
    case FinishedToken(t) => l.(recent := l.recent - {t})
    case Scraped(n, now) => l.(running := n, observedAt := Some(now))
  }

  /** The clock is monotone, and a scrape counts every unfinished dispatch at least a grace window old. */
  predicate LoadEnabled(l: Load, grace: real, e: LoadEvent) {
    match e
    case Dispatched(now) => l.observedAt.Some? ==> now >= l.observedAt.value
    case FinishedToken(_) => true
    case Scraped(n, now) => n >= |Old(l.(observedAt := Some(now)), grace)|
  }

  const NoLoad: Load := Load(0, None, map[], 0)

  function LoadExec(es: seq<LoadEvent>): Load {
    if es == [] then NoLoad else LoadStep(LoadExec(es[..|es| - 1]), es[|es| - 1])
  }

  predicate LoadRun(grace: real, es: seq<LoadEvent>) {
    es == [] ||
    (LoadRun(grace, es[..|es| - 1]) && LoadEnabled(LoadExec(es[..|es| - 1]), grace, es[|es| - 1]))
  }

  predicate LoadInv(l: Load, grace: real) {
    l.running >= |Old(l, grace)| && forall t :: t in l.recent ==> t <= l.lastToken
  }

  lemma SubsetSize<T>(a: set<T>, b: set<T>)
    requires a <= b
    ensures |a| <= |b|
  {
    assert b == a + (b - a);
  }

  lemma LoadStepKeeps(l: Load, grace: real, e: LoadEvent)
    requires grace > 0.0 && LoadInv(l, grace) && LoadEnabled(l, grace, e)
    ensures LoadInv(LoadStep(l, e), grace)
  {
    var l' := LoadStep(l, e);
    match e
    case Dispatched(now) =>
      assert Old(l', grace) == Old(l, grace);
    case FinishedToken(t) =>
      assert Old(l', grace) <= Old(l, grace);
      SubsetSize(Old(l', grace), Old(l, grace));
    case Scraped(n, now) =>
      assert Old(l', grace) == Old(l.(observedAt := Some(now)), grace);
  }

  lemma {:induction false} LoadExecKeeps(grace: real, es: seq<LoadEvent>)
    requires grace > 0.0 && LoadRun(grace, es)
    ensures LoadInv(LoadExec(es), grace)
  {
    if es == [] {
    } else {
      LoadExecKeeps(grace, es[..|es| - 1]);
      LoadStepKeeps(LoadExec(es[..|es| - 1]), grace, es[|es| - 1]);
    }
  }

  /** `occupied` is a safe upper bound: it never under-counts the dispatches still running. */
  lemma OccupiedIsSafe(grace: real, es: seq<LoadEvent>)
    requires grace > 0.0 && LoadRun(grace, es)
    ensures Occupied(LoadExec(es), grace) >= |LoadExec(es).recent|
  {
    LoadExecKeeps(grace, es);
    var l := LoadExec(es);
    assert l.recent.Keys == Young(l, grace) + Old(l, grace);
    assert Young(l, grace) !! Old(l, grace);
    assert |l.recent| == |l.recent.Keys|;
  }

  /** A dispatch at the very reading of a scrape is seen neither by the scrape nor by the count, unless grace is positive. */
  lemma WithoutGraceOneIsMissed(grace: real)
    requires grace <= 0.0
    ensures var es := [Scraped(0, 0.0), Dispatched(0.0)];
            LoadRun(grace, es) && Occupied(LoadExec(es), grace) < |LoadExec(es).recent|
  {
    var es := [Scraped(0, 0.0), Dispatched(0.0)];
    assert es[..1] == [Scraped(0, 0.0)] && es[..1][..0] == [];
    assert LoadExec(es[..1]) == Load(0, Some(0.0), map[], 0);
    assert Old(Load(0, Some(0.0), map[], 0), grace) == {};
    var l := LoadExec(es);
    assert l == Load(0, Some(0.0), map[1 := 0.0], 1);
    assert Young(l, grace) == {};
    assert |l.recent| == |l.recent.Keys| && l.recent.Keys == {1};
  }

  ghost predicate NeverUnderCounts(grace: real) {
    forall es :: LoadRun(grace, es) ==> Occupied(LoadExec(es), grace) >= |LoadExec(es).recent|
  }

  /** `occupied` is a safe upper bound in every run if and only if the grace window is positive. */
  lemma OccupiedIsSafeIff(grace: real)
    ensures NeverUnderCounts(grace) <==> grace > 0.0
  {
    if grace > 0.0 {
      forall es | LoadRun(grace, es)
        ensures Occupied(LoadExec(es), grace) >= |LoadExec(es).recent|
      {
        OccupiedIsSafe(grace, es);
      }
    } else {
      WithoutGraceOneIsMissed(grace);
    }
  }

  function Dispatches(es: seq<LoadEvent>): nat {
    if es == [] then 0
    else Dispatches(es[..|es| - 1]) + if es[|es| - 1].Dispatched? then 1 else 0
  }

  /** Event `j` is the `t`-th dispatch, and token `t` was not finished after it. */
  predicate Unfinished(es: seq<LoadEvent>, t: nat, j: nat) {
    && j < |es| && es[j].Dispatched? && Dispatches(es[..j]) + 1 == t
    && forall m :: j < m < |es| ==> es[m] != FinishedToken(t)
  }

  ghost predicate IsUnfinished(es: seq<LoadEvent>, t: nat) {
    exists j: nat :: Unfinished(es, t, j)
  }

  /** The last scrape among the events, if there is one: what it counted and when. */
  function LastScrape(es: seq<LoadEvent>): Option<(int, real)> {
    if es == [] then None
    else if es[|es| - 1].Scraped? then Some((es[|es| - 1].running, es[|es| - 1].now))
    else LastScrape(es[..|es| - 1])
  }

  lemma {:induction false} UnfinishedLater(es: seq<LoadEvent>, e: LoadEvent, t: nat, j: nat)
    ensures Unfinished(es + [e], t, j) <==>
              || (Unfinished(es, t, j) && e != FinishedToken(t))
              || (j == |es| && e.Dispatched? && Dispatches(es) + 1 == t)
    ensures j < |es| ==> (es + [e])[j] == es[j]
  {
    var more := es + [e];
    assert more[|es|] == e && more[..|es|] == es;
    assert j < |es| ==> more[..j] == es[..j];
    assert forall m :: 0 <= m < |es| ==> more[m] == es[m];
  }

  lemma {:induction false} FewerDispatches(es: seq<LoadEvent>, j: nat)
    requires j <= |es|
    ensures Dispatches(es[..j]) <= Dispatches(es)
  {
    if j == |es| {
      assert es[..j] == es;
    } else {
      assert es[..|es| - 1][..j] == es[..j];
      FewerDispatches(es[..|es| - 1], j);
    }
  }

  /** What is known of token `t` is what the events say of it. */
  ghost predicate KnowsToken(es: seq<LoadEvent>, t: nat) {
    && (t in LoadExec(es).recent <==> IsUnfinished(es, t))
    && forall j: nat :: Unfinished(es, t, j) ==> t in LoadExec(es).recent && LoadExec(es).recent[t] == es[j].now
  }

  lemma {:induction false} UnfinishedIsOld(es: seq<LoadEvent>, t: nat, j: nat)
    requires Unfinished(es, t, j)
    ensures t <= Dispatches(es)
  {
    FewerDispatches(es, j + 1);
    assert es[..j + 1][..j] == es[..j];
  }

  /** After one more event, token `t` is unfinished if it was and is not finished now, or if this is its dispatch. */
  lemma {:induction false} IsUnfinishedLater(es: seq<LoadEvent>, e: LoadEvent, t: nat)
    ensures IsUnfinished(es + [e], t) <==>
              (IsUnfinished(es, t) && e != FinishedToken(t)) || (e.Dispatched? && Dispatches(es) + 1 == t)
  {
    if IsUnfinished(es + [e], t) {
      var j: nat :| Unfinished(es + [e], t, j);
      UnfinishedLater(es, e, t, j);
    }
    if IsUnfinished(es, t) && e != FinishedToken(t) {
      var j: nat :| Unfinished(es, t, j);
      UnfinishedLater(es, e, t, j);
    }
    UnfinishedLater(es, e, t, |es|);
  }

  lemma {:induction false} TimesLater(es: seq<LoadEvent>, e: LoadEvent, t: nat, j: nat, l: Load)
    requires KnowsToken(es, t) && l == LoadExec(es) && l.lastToken == Dispatches(es) && Unfinished(es + [e], t, j)
    ensures t in LoadStep(l, e).recent && LoadStep(l, e).recent[t] == (es + [e])[j].now
  {
    UnfinishedLater(es, e, t, j);
    if Unfinished(es, t, j) {
      UnfinishedIsOld(es, t, j);
    } else {
      assert (es + [e])[j] == e;
    }
  }

  lemma {:induction false} KnowsTokenLater(es: seq<LoadEvent>, e: LoadEvent, t: nat, l: Load, l': Load)
    requires KnowsToken(es, t) && l == LoadExec(es) && l.lastToken == Dispatches(es)
    requires l' == LoadStep(l, e) == LoadExec(es + [e])
    ensures KnowsToken(es + [e], t)
  {
    IsUnfinishedLater(es, e, t);
    forall j: nat | Unfinished(es + [e], t, j)
      ensures t in l'.recent && l'.recent[t] == (es + [e])[j].now
    {
      TimesLater(es, e, t, j, l);
    }
  }

  /** The recorded dispatches are those not finished yet, each with its time; the rest is from the last scrape. */
  lemma {:induction false} RecentAreUnfinished(es: seq<LoadEvent>)
    ensures forall t: nat :: KnowsToken(es, t)
    ensures var l := LoadExec(es);
            && l.lastToken == Dispatches(es)
            && (match LastScrape(es)
                case None => l.running == 0 && l.observedAt == None
                case Some(x) => l.running == x.0 && l.observedAt == Some(x.1))
  {
    if es == [] {
    } else {
      var front, e := es[..|es| - 1], es[|es| - 1];
      assert es == front + [e];
      RecentAreUnfinished(front);
      forall t: nat
        ensures KnowsToken(es, t)
      {
        KnowsTokenLater(front, e, t, LoadExec(front), LoadExec(es));
      }
    }
  }

  ghost predicate IsTrusted(es: seq<LoadEvent>, grace: real, t: nat) {
    exists j: nat :: Unfinished(es, t, j) && (LastScrape(es).None? || es[j].now > LastScrape(es).value.1 - grace)
  }

  /**
   * Occupied is exact: the running count of the last scrape and, once each, the unfinished
   * dispatches made later than a grace window before it; without a scrape, all unfinished ones.
   */
  lemma {:induction false} OccupiedCounts(grace: real, es: seq<LoadEvent>, late: set<nat>)
    requires forall t: nat :: t in late <==> IsTrusted(es, grace, t)
    ensures Occupied(LoadExec(es), grace) == (if LastScrape(es).None? then 0 else LastScrape(es).value.0) + |late|
  {
    var l := LoadExec(es);
    RecentAreUnfinished(es);
    forall t: nat
      ensures t in Young(l, grace) <==> t in late
    {
      assert KnowsToken(es, t);
    }
    assert Young(l, grace) == late;
  }

  // ---- Warm gate ----

  /** The registry never asks for fewer than one good scrape. */
  type Positive = n: nat | n > 0 witness 1

  datatype Config = Config(
    requireWarm: bool, minScrapes: Positive, rampSteps: seq<int>, rampStep: real, minKvFree: real)

  /** A probe reads the health epoch when it starts to run, not when it is created. */
  datatype Probe = NoProbe | Created | Running(epoch: nat)

  /** `warmEpoch` is history: the epoch in which the probe that warmed the worker began. */
  datatype Health = Health(
    healthy: bool,
    warm: bool,
    streak: nat,
    epoch: nat,
    warmCount: nat,
    rampCap: Option<int>,
    rampStage: nat,
    rampNextAt: real,
    probe: Probe,
    warmEpoch: nat)

  const Cold: Health := Health(false, false, 0, 0, 0, None, 0, 0.0, NoProbe, 0)

  function MarkCold(c: Config, h: Health): Health {
    var h' := h.(streak := 0, epoch := h.epoch + 1);
    if c.requireWarm && h.warm then h'.(warm := false, rampCap := None) else h'
  }

  function ScrapeFailed(c: Config, h: Health): Health {
    h.(healthy := false, streak := 0, epoch := h.epoch + 1, warm := h.warm && !c.requireWarm, rampCap := None)
  }

  predicate Pressured(c: Config, waiting: int, kvFree: real) {
    waiting > 0 || kvFree < c.minKvFree
  }

  /** Two readings of the clock: one to compare, one to set the next interval. */
  function AdvanceRamp(c: Config, h: Health, waiting: int, kvFree: real, now: real, later: real): Health {
    if h.rampCap.None? || now < h.rampNextAt then h
    else
      var h' := h.(rampNextAt := later + c.rampStep);
      if Pressured(c, waiting, kvFree) then h'
      else if h.rampStage + 1 >= |c.rampSteps| then h'.(rampStage := h.rampStage + 1, rampCap := None)
      else h'.(rampStage := h.rampStage + 1, rampCap := Some(c.rampSteps[h.rampStage + 1]))
  }

  function ScrapeOk(c: Config, h: Health, waiting: int, kvFree: real, now: real, later: real): Health {
    var h' := AdvanceRamp(c, h.(healthy := true, streak := h.streak + 1), waiting, kvFree, now, later);
    if !c.requireWarm then h'.(warm := true)
    else if !h'.warm && h'.streak >= c.minScrapes && h'.probe.NoProbe? then h'.(probe := Created)
    else h'
  }

  function StartRamp(c: Config, h: Health, now: real): Health {
    if c.rampSteps != [] && h.warmCount > 1
    then h.(rampStage := 0, rampCap := Some(c.rampSteps[0]), rampNextAt := now + c.rampStep)
    else h
  }

  predicate ProbeCounts(c: Config, h: Health) {
    h.probe.Running? && h.healthy && h.epoch == h.probe.epoch && h.streak >= c.minScrapes
  }

  function ProbeEnds(c: Config, h: Health, ok: bool, now: real): Health {
    if ok && ProbeCounts(c, h)
    then StartRamp(c, h.(warm := true, warmCount := h.warmCount + 1, warmEpoch := h.probe.epoch, probe := NoProbe), now)
    else h.(probe := NoProbe)
  }

  datatype Event =
    | Failed
    | Good(waiting: int, kvFree: real, now: real, later: real)
    | ProbeBegan
    | ProbeEnded(ok: bool, at: real)
    | Faulted  // the worker reported a fault such as an OOM

  function Step(c: Config, h: Health, e: Event): Health {
    match e
    case Failed => ScrapeFailed(c, h)
    case Good(waiting, kvFree, now, later) => ScrapeOk(c, h, waiting, kvFree, now, later)
    case ProbeBegan => if h.probe.Created? then h.(probe := Running(h.epoch)) else h
    case ProbeEnded(ok, at) => if h.probe.Running? then ProbeEnds(c, h, ok, at) else h
    case Faulted => MarkCold(c, h)
  }

  function Exec(c: Config, es: seq<Event>): Health {
    if es == [] then Cold else Step(c, Exec(c, es[..|es| - 1]), es[|es| - 1])
  }

  predicate Inv(c: Config, h: Health) {
    && (c.requireWarm && h.warm ==>
          h.healthy && h.streak >= c.minScrapes && h.warmEpoch == h.epoch && h.warmCount >= 1 && h.probe.NoProbe?)
    && (h.streak > 0 ==> h.healthy)
    && (h.rampCap.Some? ==>
          && h.warm && h.warmCount >= 2
          && h.rampStage < |c.rampSteps| && h.rampCap.value == c.rampSteps[h.rampStage])
    && (!c.requireWarm ==> h.probe.NoProbe? && h.rampCap.None?)
  }

  lemma StepKeeps(c: Config, h: Health, e: Event)
    requires Inv(c, h)
    ensures Inv(c, Step(c, h, e))
  {
  }

  lemma {:induction false} ExecKeeps(c: Config, es: seq<Event>)
    ensures Inv(c, Exec(c, es))
  {
    if es == [] {
    } else {
      ExecKeeps(c, es[..|es| - 1]);
      StepKeeps(c, Exec(c, es[..|es| - 1]), es[|es| - 1]);
    }
  }

  /**
   * Warm-gate safety: in every history with the gate on, a warm worker is healthy, has enough good
   * scrapes in a row, and was warmed by a probe that began in the current health epoch; a capped
   * worker is warm, has returned after being cold, and its cap is the one of its ramp stage.
   */
  lemma WarmGateSafety(c: Config, es: seq<Event>)
    ensures var h := Exec(c, es);
            && (c.requireWarm && h.warm ==> h.healthy && h.streak >= c.minScrapes && h.warmEpoch == h.epoch)
            && (h.rampCap.Some? ==>
                  && c.requireWarm && h.warm && h.warmCount >= 2
                  && h.rampStage < |c.rampSteps| && h.rampCap.value == c.rampSteps[h.rampStage])
  {
    ExecKeeps(c, es);
  }

  predicate Unpressured(c: Config, e: Event) {
    e.Good? && e.waiting <= 0 && e.kvFree >= c.minKvFree
  }

  /** Good scrapes without pressure, each after the interval the previous one set. */
  predicate Intervals(c: Config, h: Health, es: seq<Event>)
    decreases |es|
  {
    es == [] ||
    (Unpressured(c, es[0]) && es[0].now >= h.rampNextAt && Intervals(c, Step(c, h, es[0]), es[1..]))
  }

  function ExecFrom(c: Config, h: Health, es: seq<Event>): Health
    decreases |es|
  {
    if es == [] then h else ExecFrom(c, Step(c, h, es[0]), es[1..])
  }

  /** The ramp goes through its steps in order: n unpressured intervals end an n-step ramp, no fewer do. */
  lemma {:induction false} RampRunsItsCourse(c: Config, h: Health, es: seq<Event>)
    requires c.requireWarm && Inv(c, h) && h.rampCap.Some? && Intervals(c, h, es)
    requires h.rampStage + |es| <= |c.rampSteps|
    ensures var h' := ExecFrom(c, h, es);
            && h'.warm && h'.rampStage == h.rampStage + |es|
            && (h'.rampCap == if h.rampStage + |es| < |c.rampSteps| then Some(c.rampSteps[h.rampStage + |es|]) else None)
            && (es != [] ==> es[|es| - 1].Good? && h'.rampNextAt == es[|es| - 1].later + c.rampStep)
    decreases |es|
  {
    if es == [] {
    } else {
      var h1 := Step(c, h, es[0]);
      StepKeeps(c, h, es[0]);
      if |es| > 1 {
        RampRunsItsCourse(c, h1, es[1..]);
      } else {
        assert es[1..] == [];
        assert ExecFrom(c, h1, []) == h1;
      }
    }
  }

  // ---- The warm gate in terms of the events alone ----

  predicate Outage(e: Event) {
    e.Failed? || e.Faulted?
  }

  /** No outage from event `i` on. */
  predicate Calm(es: seq<Event>, i: nat) {
    forall m :: i <= m < |es| ==> !Outage(es[m])
  }

  /** Good scrapes since the last outage. */
  function GoodSince(es: seq<Event>): nat {
    if es == [] || Outage(es[|es| - 1]) then 0
    else GoodSince(es[..|es| - 1]) + if es[|es| - 1].Good? then 1 else 0
  }

  /** The probe that is out: it waits to run, or it began with event `at`. */
  datatype Out = Nothing | Waiting | Began(at: nat)

  /** A cold worker gets a probe at the scrape that makes enough, unless one is out. */
  ghost function ProbeOut(c: Config, es: seq<Event>): Out
    decreases |es|, 0
  {
    if es == [] then Nothing
    else
      var front, e := es[..|es| - 1], es[|es| - 1];
      var was := ProbeOut(c, front);
      if e.Good? && was.Nothing? && GoodSince(es) >= c.minScrapes && !Passed(c, front) then Waiting
      else if e.ProbeBegan? && was.Waiting? then Began(|front|)
      else if e.ProbeEnded? && was.Began? then Nothing
      else was
  }

  /** Event `j` ends a probe well: it began after the last outage, and there were enough good scrapes since. */
  ghost predicate Passes(c: Config, es: seq<Event>, j: nat)
    requires j < |es|
    decreases |es|, 0
  {
    && es[j].ProbeEnded? && es[j].ok
    && ProbeOut(c, es[..j]).Began? && Calm(es[..j], ProbeOut(c, es[..j]).at)
    && GoodSince(es[..j]) >= c.minScrapes
  }

  /** Since the last outage a probe began and ended well. */
  ghost predicate Passed(c: Config, es: seq<Event>)
    decreases |es|, 1
  {
    exists j: nat :: j < |es| && Passes(c, es, j) && Calm(es, j)
  }

  /** How often a probe has ended well. */
  ghost function Passings(c: Config, es: seq<Event>): nat {
    if es == [] then 0
    else Passings(c, es[..|es| - 1]) + if Passes(c, es, |es| - 1) then 1 else 0
  }

  ghost predicate ProbeMatches(es: seq<Event>, h: Health, o: Out) {
    match o
    case Nothing => h.probe.NoProbe?
    case Waiting => h.probe.Created?
    case Began(at) =>
      at < |es| && h.probe.Running? && h.probe.epoch <= h.epoch && (h.probe.epoch == h.epoch <==> Calm(es, at))
  }

  ghost predicate Matches(c: Config, es: seq<Event>, h: Health) {
    && h.streak == GoodSince(es) && (h.streak > 0 ==> h.healthy)
    && ProbeMatches(es, h, ProbeOut(c, es))
    && (h.warm <==> Passed(c, es)) && h.warmCount == Passings(c, es)
  }

  lemma {:induction false} PassesLater(c: Config, es: seq<Event>, e: Event, j: nat)
    requires j < |es|
    ensures Passes(c, es + [e], j) <==> Passes(c, es, j)
  {
    assert (es + [e])[..j] == es[..j];
  }

  lemma {:induction false} CalmLater(es: seq<Event>, e: Event, i: nat)
    ensures Calm(es + [e], i) <==> Calm(es, i) && (i <= |es| ==> !Outage(e))
  {
    var more := es + [e];
    assert more[|es|] == e;
    assert forall m :: 0 <= m < |es| ==> more[m] == es[m];
  }

  lemma {:induction false} PassedLater(c: Config, es: seq<Event>, e: Event)
    ensures Passed(c, es + [e]) <==> !Outage(e) && (Passed(c, es) || Passes(c, es + [e], |es|))
  {
    var more := es + [e];
    forall j: nat | j < |es|
      ensures Passes(c, more, j) <==> Passes(c, es, j)
      ensures Calm(more, j) <==> Calm(es, j) && !Outage(e)
    {
      PassesLater(c, es, e, j);
      CalmLater(es, e, j);
    }
    CalmLater(es, e, |es|);
    if Passed(c, es) && !Outage(e) {
      var j: nat :| j < |es| && Passes(c, es, j) && Calm(es, j);
      assert Passes(c, more, j) && Calm(more, j);
    }
    if Passes(c, more, |es|) {
      assert more[|es|] == e && Calm(more, |es|);
    }
  }

  /** One more event. */
  lemma {:induction false} StepMatches(c: Config, es: seq<Event>, h: Health, e: Event, h': Health)
    requires c.requireWarm && Matches(c, es, h) && Inv(c, h) && h' == Step(c, h, e)
    ensures Matches(c, es + [e], h')
  {
    var more := es + [e];
    assert more[..|es|] == es && more[|es|] == e;
    PassedLater(c, es, e);
    if ProbeOut(c, es).Began? {
      CalmLater(es, e, ProbeOut(c, es).at);
    }
    CalmLater(es, e, |es|);
  }

  lemma {:induction false} ExecMatches(c: Config, es: seq<Event>)
    requires c.requireWarm
    ensures Matches(c, es, Exec(c, es))
  {
    if es == [] {
    } else {
      var front := es[..|es| - 1];
      assert es == front + [es[|es| - 1]];
      ExecMatches(c, front);
      ExecKeeps(c, front);
      StepMatches(c, front, Exec(c, front), es[|es| - 1], Exec(c, es));
    }
  }

  /**
   * The warm gate, both ways: with the gate on, a worker is warm exactly when, since its last
   * outage, a probe began and ended well with enough good scrapes before its end; the count says how
   * often that happened. With the gate off it is warm from its first good scrape on.
   */
  lemma WarmIff(c: Config, es: seq<Event>)
    ensures c.requireWarm ==> (Exec(c, es).warm <==> Passed(c, es)) && Exec(c, es).warmCount == Passings(c, es)
    ensures !c.requireWarm ==> (Exec(c, es).warm <==> exists j :: 0 <= j < |es| && es[j].Good?)
  {
    if c.requireWarm {
      ExecMatches(c, es);
    } else {
      UngatedIsWarm(c, es);
    }
  }

  lemma {:induction false} UngatedIsWarm(c: Config, es: seq<Event>)
    requires !c.requireWarm
    ensures Exec(c, es).warm <==> exists j :: 0 <= j < |es| && es[j].Good?
  {
    if es == [] {
    } else {
      var front, e := es[..|es| - 1], es[|es| - 1];
      UngatedIsWarm(c, front);
      ExecKeeps(c, front);
      assert forall j :: 0 <= j < |front| ==> front[j] == es[j];
    }
  }

  /** A probe that ends well warms the worker; from the second time on the ramp starts at its first step. */
  lemma {:induction false} PassingStartsRamp(c: Config, es: seq<Event>, at: real)
    requires c.requireWarm && Passes(c, es + [ProbeEnded(true, at)], |es|)
    ensures var h := Exec(c, es + [ProbeEnded(true, at)]);
            && h.warm && h.warmCount == Passings(c, es) + 1
            && (if Passings(c, es) >= 1 && c.rampSteps != []
                then h.rampCap == Some(c.rampSteps[0]) && h.rampStage == 0 && h.rampNextAt == at + c.rampStep
                else h.rampCap == None)
  {
    var more := es + [ProbeEnded(true, at)];
    assert more[..|es|] == es && more[|es|] == ProbeEnded(true, at);
    ExecMatches(c, es);
    ExecKeeps(c, es);
  }

  predicate AllGood(es: seq<Event>) {
    forall i :: 0 <= i < |es| ==> es[i].Good?
  }

  function Joined(es: seq<Event>, more: seq<Event>): seq<Event> {
    es + more
  }

  /** What good scrapes do to a cold worker with no probe running. */
  predicate Qualifies(c: Config, h: Health, scrapes: nat) {
    && !h.warm && !h.probe.Running? && h.streak >= scrapes && (scrapes > 0 ==> h.healthy)
    && (scrapes >= c.minScrapes ==> h.probe.Created?)
  }

  lemma OneMoreQualifies(c: Config, h: Health, e: Event, scrapes: nat)
    requires c.requireWarm && e.Good? && Qualifies(c, h, scrapes)
    ensures Qualifies(c, Step(c, h, e), scrapes + 1)
  {
  }

  /** Good scrapes add up, and enough of them on a cold worker with no probe out create one. */
  lemma {:induction false} GoodScrapesQualify(c: Config, es: seq<Event>, good: seq<Event>)
    requires c.requireWarm && AllGood(good) && !Exec(c, es).warm && !Exec(c, es).probe.Running?
    ensures Qualifies(c, Exec(c, Joined(es, good)), |good|)
  {
    if good == [] {
      assert Joined(es, good) == es;
    } else {
      var front, e := good[..|good| - 1], good[|good| - 1];
      GoodScrapesQualify(c, es, front);
      ExecOne(c, Joined(es, front), e);
      assert Joined(es, good) == Joined(es, front) + [e];
      OneMoreQualifies(c, Exec(c, Joined(es, front)), e, |front|);
    }
  }

  lemma ExecOne(c: Config, es: seq<Event>, e: Event)
    ensures Exec(c, es + [e]) == Step(c, Exec(c, es), e)
  {
    assert (es + [e])[..|es|] == es;
  }

  /**
   * The gate opens: whatever happened before, a cold worker with no probe running is warm after
   * enough good scrapes and a probe that begins and succeeds.
   */
  lemma {:induction false} GateOpens(c: Config, es: seq<Event>, good: seq<Event>, at: real)
    requires c.requireWarm && AllGood(good) && |good| >= c.minScrapes
    requires !Exec(c, es).warm && !Exec(c, es).probe.Running?
    ensures Exec(c, es + good + [ProbeBegan] + [ProbeEnded(true, at)]).warm
  {
    GoodScrapesQualify(c, es, good);
    assert Joined(es, good) == es + good;
    ExecOne(c, es + good, ProbeBegan);
    ExecOne(c, es + good + [ProbeBegan], ProbeEnded(true, at));
  }

  /** Good scrapes under pressure, or before the interval is over. */
  predicate Holding(c: Config, h: Health, es: seq<Event>)
    decreases |es|
  {
    es == [] ||
    (es[0].Good? && (es[0].waiting > 0 || es[0].kvFree < c.minKvFree || es[0].now < h.rampNextAt)
     && Holding(c, Step(c, h, es[0]), es[1..]))
  }

  /** Under pressure, or before its interval is over, the ramp stays where it is. */
  lemma {:induction false} RampHolds(c: Config, h: Health, es: seq<Event>)
    requires c.requireWarm && Inv(c, h) && h.rampCap.Some? && Holding(c, h, es)
    ensures var h' := ExecFrom(c, h, es); h'.warm && h'.rampCap == h.rampCap && h'.rampStage == h.rampStage
    decreases |es|
  {
    if es == [] {
    } else {
      StepKeeps(c, h, es[0]);
      RampHolds(c, Step(c, h, es[0]), es[1..]);
    }
  }

  // ---- Which workers may serve ----

  datatype Candidate = Candidate(warm: bool, rampCap: Option<int>, inflight: int, queued: int)

  predicate Eligible(requireWarm: bool, s: Candidate) {
    !requireWarm || s.warm
  }

  predicate BelowCap(s: Candidate) {
    s.rampCap.None? || s.inflight + s.queued < s.rampCap.value
  }

  /** A ramping worker at its cap is left out while some other warm worker is open. */
  function ServingSnapshots(requireWarm: bool, ramping: bool, all: seq<Candidate>): (r: seq<Candidate>)
    ensures forall x :: x in r ==> x in all && (requireWarm ==> x.warm)
    ensures (exists x :: x in all && (requireWarm ==> x.warm)) <==> r != []
    ensures if ramping && exists x :: x in all && (requireWarm ==> x.warm) && (x.rampCap.Some? ==> x.inflight + x.queued < x.rampCap.value)
            then forall x :: x in r <==> x in all && (requireWarm ==> x.warm) && (x.rampCap.Some? ==> x.inflight + x.queued < x.rampCap.value)
            else forall x :: x in r <==> x in all && (requireWarm ==> x.warm)
  {
    var warm := Filter(all, (s: Candidate) => Eligible(requireWarm, s));
    assert warm != [] ==> warm[0] in warm;
    if !ramping then warm
    else
      var free := Filter(warm, (s: Candidate) => BelowCap(s));
      assert free != [] ==> free[0] in free;
      if free != [] then free else warm
  }

  // ---- The in-place form ----

  class WorkerSnapshot {
    const grace: real
    var load: Load
    var inflight: int
    var inflightTokens: int
    var health: Health

    constructor (grace: real)
      ensures this.grace == grace && load == NoLoad && inflight == 0 && inflightTokens == 0 && health == Cold
    {
      this.grace := grace;
      load, inflight, inflightTokens, health := NoLoad, 0, 0, Cold;
    }

    method NoteDispatch(now: real) returns (token: nat)
      modifies this`load
      ensures load == LoadStep(old(load), Dispatched(now)) && token == load.lastToken
    {
      token := load.lastToken + 1;
      load := load.(lastToken := token, recent := load.recent[token := now]);
    }

    method NoteFinish(token: nat)
      modifies this`load
      ensures load == LoadStep(old(load), FinishedToken(token))
    {
      load := load.(recent := load.recent - {token});
    }

    method CountOccupied() returns (n: int)
      ensures n == Occupied(load, grace)
    {
      var young: set<nat> := {};
      var todo := load.recent.Keys;
      while todo != {}
        invariant todo <= load.recent.Keys
        invariant young == set t | t in load.recent.Keys - todo && Counted(load, grace, load.recent[t])
        decreases |todo|
      {
        var t :| t in todo;
        todo := todo - {t};
        if Counted(load, grace, load.recent[t]) {
          young := young + {t};
        }
      }
      assert young == Young(load, grace);
      n := load.running + |young|;
    }

    /** A scrape that succeeded, up to the point where a probe may be created. */
    method Scraped(c: Config, running: int, waiting: int, kvFree: real, at: real, now: real, later: real)
      modifies this`load, this`health
      ensures load == LoadStep(old(load), LoadEvent.Scraped(running, at))
      ensures health == ScrapeOk(c, old(health), waiting, kvFree, now, later)
    {
      load := load.(running := running, observedAt := Some(at));
      health := health.(healthy := true, streak := health.streak + 1);
      if health.rampCap.Some? && now >= health.rampNextAt {
        health := health.(rampNextAt := later + c.rampStep);
        if !(waiting > 0 || kvFree < c.minKvFree) {
          health := health.(rampStage := health.rampStage + 1);
          health := health.(rampCap := if health.rampStage >= |c.rampSteps| then None
                                       else Some(c.rampSteps[health.rampStage]));
        }
      }
      if !c.requireWarm {
        health := health.(warm := true);
      } else if !health.warm && health.streak >= c.minScrapes {
        if health.probe.NoProbe? {
          health := health.(probe := Created);
        }
      }
    }

    method ScrapeLost(c: Config)
      modifies this`health
      ensures health == ScrapeFailed(c, old(health))
    {
      health := health.(healthy := false, streak := 0, epoch := health.epoch + 1);
      if c.requireWarm && health.warm {
        health := health.(warm := false);
      }
      health := health.(rampCap := None);
    }

    method ProbeDone(c: Config, ok: bool, now: real) returns (result: string)
      requires health.probe.Running?
      modifies this`health
      ensures health == ProbeEnds(c, old(health), ok, now)
      ensures result == (if !ok then "error" else if ProbeCounts(c, old(health)) then "ok" else "stale")
      ensures if result == "ok" then health.warm && health.warmCount == old(health.warmCount) + 1
              else health.warm == old(health.warm) && health.warmCount == old(health.warmCount)
      ensures health.probe.NoProbe?
    {
      result := if ok then "ok" else "error";
      var epoch := health.probe.epoch;
      health := health.(probe := NoProbe);
      if ok && (!health.healthy || health.epoch != epoch || health.streak < c.minScrapes) {
        result := "stale";
      } else if ok {
        health := health.(warm := true, warmCount := health.warmCount + 1, warmEpoch := epoch);
        if c.rampSteps != [] && health.warmCount > 1 {
          health := health.(rampStage := 0, rampCap := Some(c.rampSteps[0]), rampNextAt := now + c.rampStep);
        }
      }
    }

    method Fault(c: Config)
      modifies this`health
      ensures health == MarkCold(c, old(health))
    {
      health := health.(streak := 0, epoch := health.epoch + 1);
      if c.requireWarm && health.warm {
        health := health.(warm := false, rampCap := None);
      }
    }
  }
}
