/**
 * Governed model calls (services/app/app/llm.py): `_governed` tries a list of aliases, each under its own
 * budget reservation; an agent call settles its one reservation at the first of any number of attempts to.
 *
 * What the provider answers and what the budget grants are parameters.
 */
module Fallback {
  import opened Basics

  datatype Usage = Usage(input: int, output: int)

  datatype Reply =
    | Result(known: bool, usage: Usage)
    | ProviderError(retryable: bool, code: string)
    | OtherError

  /** One call: the aliases in order, whether a run is bound, and the answers of the world. */
  datatype Setup = Setup(
    candidates: seq<string>,
    bound: bool,
    granted: nat -> bool,  // the budget takes the reservation of attempt i
    reply: nat -> Reply)   // what attempt i comes back with

  datatype Action =
    | Reserve(i: nat)
    | Call(i: nat, alias: string)
    | Release(i: nat)
    | Commit(i: nat, usage: Option<Usage>)  // None: keep the worst case

  datatype Outcome =
    | Answered(i: nat, fallbackUsed: bool)
    | Raised(i: nat)
    | RunBudgetExhausted(i: nat)

  datatype Run = Run(log: seq<Action>, outcome: Outcome)

  predicate IsBudgetCode(code: string) {
    "bedrock_budget" <= code
  }

  /** An error after which the next alias may be tried. */
  predicate FallsThrough(r: Reply) {
    r.ProviderError? && r.retryable && !IsBudgetCode(r.code)
  }

  function Settlement(s: Setup, i: nat): seq<Action> {
    if !s.bound then []
    else
      match s.reply(i)
      case Result(known, usage) => [Commit(i, if known then Some(usage) else None)]
      case ProviderError(_, _) => [Release(i)]
      case OtherError => [Release(i)]
  }

  /** Attempt `i`, from its reservation to its settlement. */
  function Attempt(s: Setup, i: nat): seq<Action>
    requires i < |s.candidates|
  {
    (if s.bound then [Reserve(i)] else []) + [Call(i, s.candidates[i])] + Settlement(s, i)
  }

  function OutcomeOf(s: Setup, i: nat): Outcome {
    if s.reply(i).Result? then Answered(i, i > 0) else Raised(i)
  }

  predicate Refused(s: Setup, i: nat) {
    s.bound && !s.granted(i)
  }

  /** The loop goes on past attempt `j`: granted, and a transient error that is not the monthly guard, with an alias left. */
  predicate GoesOn(s: Setup, j: nat) {
    !Refused(s, j) && FallsThrough(s.reply(j)) && j + 1 < |s.candidates|
  }

  /** The loop from attempt `i` on. */
  function From(s: Setup, i: nat): Run
    requires i < |s.candidates|
    decreases |s.candidates| - i
  {
    if Refused(s, i) then Run([], RunBudgetExhausted(i))
    else if GoesOn(s, i) then
      var next := From(s, i + 1);
      Run(Attempt(s, i) + next.log, next.outcome)
    else Run(Attempt(s, i), OutcomeOf(s, i))
  }

  /** Settling attempt `i` once its reply is known. */
  method Settle(s: Setup, i: nat, log: seq<Action>) returns (log': seq<Action>)
    ensures log' == log + Settlement(s, i)
  {
    log' := log;
    if s.bound {
      match s.reply(i) {
        case Result(known, usage) => log' := log' + [Commit(i, if known then Some(usage) else None)];
        case ProviderError(_, _) => log' := log' + [Release(i)];
        case OtherError => log' := log' + [Release(i)];
      }
    }
  }

  /** `_governed`, after the policy has been resolved: there is always at least one candidate. */
  method Governed(s: Setup) returns (r: Run)
    requires s.candidates != []
    ensures r == From(s, 0)
  {
    var log: seq<Action> := [];
    var i := 0;
    while true
      invariant i < |s.candidates|
      invariant From(s, 0) == Run(log + From(s, i).log, From(s, i).outcome)
      decreases |s.candidates| - i
    {
      ghost var before := log;
      if s.bound && !s.granted(i) {
        assert log + [] == log;
        return Run(log, RunBudgetExhausted(i));
      }
      log := log + (if s.bound then [Reserve(i)] else []);
      log := log + [Call(i, s.candidates[i])];
      log := Settle(s, i, log);
      LogGrows(s, i, before, log);
      var reply := s.reply(i);
      if reply.Result? {
        return Run(log, Answered(i, i > 0));
      }
      var last := i == |s.candidates| - 1;
      if last || reply.OtherError? || !reply.retryable || IsBudgetCode(reply.code) {
        return Run(log, Raised(i));
      }
      assert GoesOn(s, i);
      i := i + 1;
    }
  }

  /** What one turn of the loop adds, and where that leaves the run. */
  lemma LogGrows(s: Setup, i: nat, before: seq<Action>, log: seq<Action>)
    requires i < |s.candidates| && !Refused(s, i)
    requires log == before + (if s.bound then [Reserve(i)] else []) + [Call(i, s.candidates[i])] + Settlement(s, i)
    ensures GoesOn(s, i) ==>
              before + From(s, i).log == log + From(s, i + 1).log && From(s, i).outcome == From(s, i + 1).outcome
    ensures !GoesOn(s, i) ==>
              before + From(s, i).log == log && From(s, i).outcome == OutcomeOf(s, i)
  {
    assert log == before + Attempt(s, i);
    if GoesOn(s, i) {
      Reassociate(before, Attempt(s, i), From(s, i + 1).log);
    }
  }

  // ---- Accounting ----

  function Reserves(k: nat): Action -> bool {
    (a: Action) => a == Reserve(k)
  }

  function Releases(k: nat): Action -> bool {
    (a: Action) => a == Release(k)
  }

  function Commits(k: nat): Action -> bool {
    (a: Action) => a.Commit? && a.i == k
  }

  /** How many attempts were made, read off the outcome. */
  function Tried(o: Outcome): nat {
    if o.RunBudgetExhausted? then o.i else o.i + 1
  }

  lemma CountOne(a: Action, f: Action -> bool)
    ensures Count([a], f) == if f(a) then 1 else 0
  {
    assert [a][..0] == [];
  }

  lemma AttemptCounts(s: Setup, i: nat, f: Action -> bool)
    requires i < |s.candidates|
    ensures Count(Attempt(s, i), f) ==
              (if s.bound && f(Reserve(i)) then 1 else 0) + (if f(Call(i, s.candidates[i])) then 1 else 0)
              + (if s.bound && f(Settlement(s, i)[0]) then 1 else 0)
  {
    var hold, call, settle := if s.bound then [Reserve(i)] else [], [Call(i, s.candidates[i])], Settlement(s, i);
    CountConcat(hold + call, settle, f);
    CountConcat(hold, call, f);
    CountOne(Call(i, s.candidates[i]), f);
    if s.bound {
      CountOne(Reserve(i), f);
      CountOne(settle[0], f);
      assert settle == [settle[0]];
    }
  }

  lemma AttemptSettles(s: Setup, i: nat, k: nat)
    requires i < |s.candidates|
    ensures Count(Attempt(s, i), Reserves(k)) == (if s.bound && k == i then 1 else 0)
    ensures Count(Attempt(s, i), Commits(k)) == (if s.bound && k == i && s.reply(i).Result? then 1 else 0)
    ensures Count(Attempt(s, i), Releases(k)) == (if s.bound && k == i && !s.reply(i).Result? then 1 else 0)
  {
    AttemptCounts(s, i, Reserves(k));
    AttemptCounts(s, i, Releases(k));
    AttemptCounts(s, i, Commits(k));
  }

  /** In a run from attempt `i` on, reservation `k` is settled as often as it is taken: once if attempt `k` was made. */
  predicate SettlesOnce(s: Setup, i: nat, k: nat, r: Run) {
    && Tried(r.outcome) >= i
    && Count(r.log, Reserves(k)) == (if s.bound && i <= k < Tried(r.outcome) then 1 else 0)
    && Count(r.log, Releases(k)) + Count(r.log, Commits(k)) == Count(r.log, Reserves(k))
    && Count(r.log, Commits(k)) == (if s.bound && r.outcome.Answered? && k == r.outcome.i then 1 else 0)
  }

  lemma LastSettles(s: Setup, i: nat, k: nat)
    requires i < |s.candidates|
    ensures SettlesOnce(s, i, k, Run(Attempt(s, i), OutcomeOf(s, i)))
  {
    AttemptSettles(s, i, k);
  }

  lemma EarlierSettles(s: Setup, i: nat, k: nat, next: Run)
    requires GoesOn(s, i) && SettlesOnce(s, i + 1, k, next)
    ensures SettlesOnce(s, i, k, Run(Attempt(s, i) + next.log, next.outcome))
  {
    AttemptSettles(s, i, k);
    CountConcat(Attempt(s, i), next.log, Reserves(k));
    CountConcat(Attempt(s, i), next.log, Releases(k));
    CountConcat(Attempt(s, i), next.log, Commits(k));
  }

  lemma {:induction false} SettledOnceFrom(s: Setup, i: nat, k: nat)
    requires i < |s.candidates|
    ensures SettlesOnce(s, i, k, From(s, i))
    decreases |s.candidates| - i
  {
    if Refused(s, i) {
    } else if GoesOn(s, i) {
      SettledOnceFrom(s, i + 1, k);
      EarlierSettles(s, i, k, From(s, i + 1));
    } else {
      LastSettles(s, i, k);
    }
  }

  /** For every call: each reservation taken is settled exactly once, and committed only for the answer given. */
  lemma EveryReservationIsSettled(s: Setup, k: nat)
    requires s.candidates != []
    ensures var r := From(s, 0);
            && Count(r.log, Reserves(k)) <= 1
            && Count(r.log, Releases(k)) + Count(r.log, Commits(k)) == Count(r.log, Reserves(k))
            && Count(r.log, Commits(k)) == (if s.bound && r.outcome == Answered(k, k > 0) then 1 else 0)
  {
    SettledOnceFrom(s, 0, k);
    OutcomeIs(s, 0);
  }

  /** The budget has room for attempt `j`, or no run is bound. */
  predicate HasRoom(s: Setup, j: nat) {
    s.bound ==> s.granted(j)
  }

  /** Attempt `j` was made, failed in a way another alias may not, and there is another alias. */
  predicate TriesNext(s: Setup, j: nat) {
    && HasRoom(s, j) && j + 1 < |s.candidates|
    && s.reply(j).ProviderError? && s.reply(j).retryable && !("bedrock_budget" <= s.reply(j).code)
  }

  /** How a loop that stops at attempt `j` ends. */
  predicate EndsAt(s: Setup, j: nat, o: Outcome) {
    && j < |s.candidates| && !TriesNext(s, j)
    && (!HasRoom(s, j) ==> o == RunBudgetExhausted(j))
    && (HasRoom(s, j) && s.reply(j).Result? ==> o == Answered(j, j != 0))
    && (HasRoom(s, j) && !s.reply(j).Result? ==> o == Raised(j))
  }

  /** Attempt `j` stands in its place in a log that begins with attempt `i`. */
  predicate IsLogged(s: Setup, i: nat, log: seq<Action>, j: nat)
    requires i <= j < |s.candidates|
  {
    if !s.bound then j - i < |log| && log[j - i] == Call(j, s.candidates[j])
    else
      var p := 3 * (j - i);
      && p + 2 < |log| && log[p] == Reserve(j) && log[p + 1] == Call(j, s.candidates[j])
      && log[p + 2] == match s.reply(j)
                       case Result(true, usage) => Commit(j, Some(usage))
                       case Result(false, _) => Commit(j, None)
                       case _ => Release(j)
  }

  /** The log is that of the attempts from `i` up to `n`, and nothing else. */
  predicate LogsExactly(s: Setup, i: nat, log: seq<Action>, n: nat) {
    && i <= n <= |s.candidates| && |log| == (n - i) * (if s.bound then 3 else 1)
    && forall j :: i <= j < n ==> IsLogged(s, i, log, j)
  }

  lemma EarlierLogs(s: Setup, i: nat, next: seq<Action>, n: nat)
    requires i < |s.candidates| && LogsExactly(s, i + 1, next, n)
    ensures LogsExactly(s, i, Attempt(s, i) + next, n)
  {
    var log := Attempt(s, i) + next;
    forall j | i <= j < n
      ensures IsLogged(s, i, log, j)
    {
      if j > i {
        assert IsLogged(s, i + 1, next, j);
        assert s.bound ==> |Attempt(s, i)| == 3;
      }
    }
  }

  lemma {:induction false} LogFrom(s: Setup, i: nat)
    requires i < |s.candidates|
    ensures LogsExactly(s, i, From(s, i).log, Tried(From(s, i).outcome))
    decreases |s.candidates| - i
  {
    if Refused(s, i) {
    } else if GoesOn(s, i) {
      LogFrom(s, i + 1);
      EarlierLogs(s, i, From(s, i + 1).log, Tried(From(s, i).outcome));
    } else {
      EarlierLogs(s, i, [], i + 1);
      assert Attempt(s, i) + [] == Attempt(s, i);
    }
  }

  /**
   * The whole call. An alias is left for the next one exactly when its error is retryable and not the monthly guard, and
   * there is a next one. The loop ends at the first attempt that is not left: without room with the run's budget
   * exhausted, else with its answer or its error. Each attempt made is logged as its reservation, its call and its
   * settlement: a commit of the usage, of the worst case where that is unknown, or a release.
   */
  lemma CallIsExact(s: Setup)
    requires s.candidates != []
    ensures var r := From(s, 0);
            && (forall j :: 0 <= j < r.outcome.i ==> TriesNext(s, j)) && EndsAt(s, r.outcome.i, r.outcome)
            && LogsExactly(s, 0, r.log, if HasRoom(s, r.outcome.i) then r.outcome.i + 1 else r.outcome.i)
  {
    OutcomeIs(s, 0);
    LogFrom(s, 0);
  }

  /** Where the loop stops, and with what. */
  lemma {:induction false} OutcomeIs(s: Setup, i: nat)
    requires i < |s.candidates|
    ensures var o := From(s, i).outcome;
            && i <= o.i < |s.candidates| && (forall j :: i <= j < o.i ==> TriesNext(s, j)) && EndsAt(s, o.i, o)
    decreases |s.candidates| - i
  {
    if !GoesOn(s, i) {
    } else {
      OutcomeIs(s, i + 1);
    }
  }

  /** The aliases called, in order. */
  function Called(log: seq<Action>): seq<string> {
    if log == [] then []
    else Called(log[..|log| - 1]) + (if log[|log| - 1].Call? then [log[|log| - 1].alias] else [])
  }

  lemma {:induction false} CalledConcat(a: seq<Action>, b: seq<Action>)
    ensures Called(a + b) == Called(a) + Called(b)
  {
    if b == [] {
      assert a + b == a;
    } else {
      var front := b[..|b| - 1];
      CalledConcat(a, front);
      assert (a + b)[..|a + b| - 1] == a + front;
    }
  }

  lemma CalledOnce(s: Setup, i: nat)
    requires i < |s.candidates|
    ensures Called(Attempt(s, i)) == [s.candidates[i]]
  {
    var hold, call, settle := if s.bound then [Reserve(i)] else [], [Call(i, s.candidates[i])], Settlement(s, i);
    CalledConcat(hold + call, settle);
    CalledConcat(hold, call);
    assert hold[..0] == [] && settle[..0] == [] && call[..0] == [];
  }

  /** The aliases called in a run from attempt `i` on are those from `i` up to the last attempt. */
  predicate CallsInOrder(s: Setup, i: nat, r: Run) {
    i <= Tried(r.outcome) <= |s.candidates| && Called(r.log) == s.candidates[i..Tried(r.outcome)]
  }

  lemma EarlierCalls(s: Setup, i: nat, next: Run)
    requires GoesOn(s, i) && CallsInOrder(s, i + 1, next)
    ensures CallsInOrder(s, i, Run(Attempt(s, i) + next.log, next.outcome))
  {
    CalledOnce(s, i);
    CalledConcat(Attempt(s, i), next.log);
    OneMoreFirst(s.candidates, i, Tried(next.outcome));
  }

  lemma OneMoreFirst(q: seq<string>, i: nat, n: nat)
    requires i < n <= |q|
    ensures [q[i]] + q[i + 1..n] == q[i..n]
  {
  }

  lemma {:induction false} CalledFrom(s: Setup, i: nat)
    requires i < |s.candidates|
    ensures CallsInOrder(s, i, From(s, i))
    decreases |s.candidates| - i
  {
    if Refused(s, i) {
    } else if GoesOn(s, i) {
      CalledFrom(s, i + 1);
      EarlierCalls(s, i, From(s, i + 1));
    } else {
      CalledOnce(s, i);
      OneMoreFirst(s.candidates, i, i + 1);
    }
  }

  /**
   * The aliases called are the first ones of the list, in order, up to the first attempt that answers, fails for good
   * (not retryable, monthly budget guard, another exception), is refused by the run's budget, or is the last.
   */
  lemma AliasesInOrderUntilDecided(s: Setup)
    requires s.candidates != []
    ensures var o := From(s, 0).outcome;
            && o.i < |s.candidates| && Called(From(s, 0).log) == s.candidates[..Tried(o)]
            && (forall j :: 0 <= j < o.i ==> TriesNext(s, j)) && !TriesNext(s, o.i)
            && (o.Answered? <==> HasRoom(s, o.i) && s.reply(o.i).Result?)
            && (o.Answered? ==> (o.fallbackUsed <==> o.i > 0))
  {
    OutcomeIs(s, 0);
    CalledFrom(s, 0);
  }

  // ---- Agent calls ----

  datatype Ending = End(usage: Option<Usage>) | Abort

  datatype Move = Committed(usage: Option<Usage>) | Released

  class Ledger {
    var moves: seq<Move>

    constructor ()
      ensures moves == []
    {
      moves := [];
    }
  }

  /** The first ending settles the reservation; without one, nothing does. */
  function Settled(reserved: bool, endings: seq<Ending>): seq<Move> {
    if !reserved || endings == [] then []
    else if endings[0].End? then [Committed(endings[0].usage)] else [Released]
  }

  class AgentCallReservation {
    const reserved: bool
    var unsettled: bool
    ghost var endings: seq<Ending>

    ghost predicate Valid(ledger: Ledger, before: seq<Move>)
      reads this, ledger
    {
      && (reserved ==> (unsettled <==> endings == []))
      && ledger.moves == before + Settled(reserved, endings)
    }

    constructor (reserved: bool, ghost ledger: Ledger)
      ensures Valid(ledger, ledger.moves) && endings == [] && this.reserved == reserved
    {
      this.reserved := reserved;
      unsettled := true;
      endings := [];
    }

    method SettleOnce() returns (first: bool)
      modifies this
      ensures first == old(unsettled) && !unsettled && endings == old(endings)
    {
      first := unsettled;
      unsettled := false;
    }

    method EndAgentCall(ledger: Ledger, usage: Option<Usage>, ghost before: seq<Move>)
      requires Valid(ledger, before)
      modifies this, ledger
      ensures Valid(ledger, before) && endings == old(endings) + [End(usage)]
    {
      if reserved {
        var first := SettleOnce();
        if first {
          ledger.moves := ledger.moves + [Committed(usage)];
        }
      }
      endings := endings + [End(usage)];
    }

    method ReleaseAgentCall(ledger: Ledger, ghost before: seq<Move>)
      requires Valid(ledger, before)
      modifies this, ledger
      ensures Valid(ledger, before) && endings == old(endings) + [Abort]
    {
      if reserved {
        var first := SettleOnce();
        if first {
          ledger.moves := ledger.moves + [Released];
        }
      }
      endings := endings + [Abort];
    }
  }
}
