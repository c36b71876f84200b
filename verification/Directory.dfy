/**
 * The TTL- and capacity-bounded LRU directory of infra/inference/kv_transfer/directory.py.
 *
 * An OrderedDict is a sequence of records in its own order, at most one for each (prefix, location).
 * The state also carries history: how many keys were inserted and invalidated, and `beliefs`, the
 * directory an unbounded, never expiring store would hold after the same calls.
 */
module Directory {
  import opened Basics

  datatype Identity = Identity(value: string, namespace: string, tokenCount: int)

  datatype Key = Key(prefix: Identity, location: string)

  datatype Record = Record(
    key: Key,
    generation: string,
    reusable: int,
    bytes: int,
    complete: bool,
    observedAt: real,
    lastAccessed: real,
    stale: Option<string>)

  /** `clock(n)` is the n-th reading of the clock, `blank` recognises white-space-only text. */
  datatype Env = Env(capacity: int, ttl: real, clock: nat -> real, blank: string -> bool)

  /** The constructor refuses any other capacity or ttl; the clock is monotonic. */
  ghost predicate Sound(v: Env) {
    v.capacity > 0 && v.ttl > 0.0 && forall m: nat, n: nat :: m <= n ==> v.clock(m) <= v.clock(n)
  }

  datatype Belief = Belief(reusable: int, bytes: int, complete: bool, observedAt: real)

  datatype State = State(
    records: seq<Record>,
    generations: map<string, string>,
    capacityEvictions: nat,
    ttlEvictions: nat,
    ticks: nat,
    inserted: nat,
    invalidated: nat,
    beliefs: map<Key, Belief>)

  const Empty: State := State([], map[], 0, 0, 0, 0, 0, map[])

  function IndexOf(rs: seq<Record>, k: Key): (i: nat)
    ensures i <= |rs| && (i < |rs| ==> rs[i].key == k)
    ensures forall j :: 0 <= j < i ==> rs[j].key != k
  {
    if rs == [] || rs[0].key == k then 0 else 1 + IndexOf(rs[1..], k)
  }

  // ---- Pieces shared by the operations ----

  function Drop(s: State, i: nat): State
    requires i < |s.records|
  {
    s.(records := Without(s.records, i))
  }

  /** A record is read: it moves to the end and is stamped with a new clock reading. */
  function Touch(v: Env, s: State, i: nat): State
    requires i < |s.records|
  {
    s.(records := Without(s.records, i) + [s.records[i].(lastAccessed := v.clock(s.ticks))], ticks := s.ticks + 1)
  }

  function Mark(rs: seq<Record>, hit: Record -> bool, reason: string): (r: seq<Record>)
    ensures |r| == |rs|
    ensures forall i :: 0 <= i < |rs| ==>
              r[i] == if hit(rs[i]) && rs[i].stale.None? then rs[i].(stale := Some(reason)) else rs[i]
  {
    seq(|rs|, i requires 0 <= i < |rs| =>
      if hit(rs[i]) && rs[i].stale.None? then rs[i].(stale := Some(reason)) else rs[i])
  }

  function AtLocation(location: string): Record -> bool {
    (r: Record) => r.key.location == location
  }

  function InNamespace(namespace: string): Record -> bool {
    (r: Record) => r.key.prefix.namespace == namespace
  }

  /** How many records `Mark` marks. */
  function Marked(rs: seq<Record>, hit: Record -> bool): nat {
    Count(rs, (r: Record) => hit(r) && r.stale.None?)
  }

  predicate Renews(s: State, location: string, generation: string) {
    location in s.generations && s.generations[location] != generation
  }

  datatype Outcome = Present | Remote | Missing | Partial | Stale | Incompatible

  /** Judging a record ticks the clock unless the record already has a reason to be stale. */
  function Judge(v: Env, s: State, r: Record): Outcome {
    if r.stale.Some? then Stale
    else if v.clock(s.ticks) - r.observedAt >= v.ttl then Stale
    else if !(r.key.location in s.generations && s.generations[r.key.location] == r.generation) then Stale
    else if !r.complete then Partial
    else Present
  }

  function Judged(v: Env, s: State, r: Record): State {
    if r.stale.Some? then s
    else s.(ticks := s.ticks + 1,
            ttlEvictions := s.ttlEvictions + if v.clock(s.ticks) - r.observedAt >= v.ttl then 1 else 0)
  }

  datatype Result = Result(outcome: Outcome, source: Option<string>, tokens: int, bytes: int, detail: Option<string>)

  function Report(r: Record, o: Outcome): Result {
    Result(o, Some(r.key.location), r.reusable, r.bytes,
           if o.Stale? && r.stale.None? then Some("ttl_expired") else r.stale)
  }

  // ---- Operations ----

  datatype Reply<T> = Ok(value: T) | Error

  function Observe(v: Env, s: State, location: string, generation: string): State {
    if v.blank(location) || v.blank(generation) then s
    else
      var s' := s.(generations := s.generations[location := generation]);
      if !Renews(s, location, generation) then s'
      else s'.(records := Mark(s.records, AtLocation(location), "worker_generation_changed"),
               beliefs := map k | k in s.beliefs && k.location != location :: s.beliefs[k])
  }

  predicate UpsertRefused(v: Env, s: State, k: Key, generation: string, reusable: int, bytes: int) {
    || v.blank(k.location) || v.blank(generation)
    || reusable <= 0 || reusable > k.prefix.tokenCount || bytes <= 0
    || k.location !in s.generations || s.generations[k.location] != generation
  }

  /** The least recently used records are evicted until the rest fit. */
  function Evict(v: Env, s: State): State
    decreases |s.records|
  {
    if |s.records| > v.capacity && s.records != []
    then Evict(v, s.(records := s.records[1..], capacityEvictions := s.capacityEvictions + 1))
    else s
  }

  function Stored(v: Env, s: State, r: Record): State {
    var i := IndexOf(s.records, r.key);
    var known := i < |s.records|;
    s.(records := (if known then Without(s.records, i) else s.records) + [r],
       ticks := s.ticks + 1,
       inserted := s.inserted + if known then 0 else 1,
       beliefs := s.beliefs[r.key := Belief(r.reusable, r.bytes, r.complete, r.observedAt)])
  }

  function NewRecord(v: Env, s: State, k: Key, generation: string, reusable: int, bytes: int, complete: bool): Record {
    Record(k, generation, reusable, bytes, complete, v.clock(s.ticks), v.clock(s.ticks), None)
  }

  function Upsert(v: Env, s: State, k: Key, generation: string, reusable: int, bytes: int, complete: bool): State {
    if UpsertRefused(v, s, k, generation, reusable, bytes) then s
    else Evict(v, Stored(v, s, NewRecord(v, s, k, generation, reusable, bytes, complete)))
  }

  /** A record found stale only now is removed; any other record that was looked at is touched. */
  function Settle(v: Env, s: State, i: nat): State
    requires i < |s.records|
  {
    var r := s.records[i];
    var s' := Judged(v, s, r);
    if Judge(v, s, r).Stale? && r.stale.None? then Drop(s', i) else Touch(v, s', i)
  }

  /**
   * The remote loop: of the first `i` records, most recently used first, take the first fresh one.
   * Removing a record does not move the ones still to be visited.
   */
  function Seek(v: Env, s: State, prefix: Identity, i: nat, seen: Option<Record>): (State, Result)
    requires i <= |s.records|
    decreases i
  {
    if i == 0 then
      (s, if seen.Some? then Report(seen.value, Stale) else Result(Missing, None, 0, 0, None))
    else
      var r := s.records[i - 1];
      if r.key.prefix != prefix then Seek(v, s, prefix, i - 1, seen)
      else
        var s' := Judged(v, s, r);
        var o := Judge(v, s, r);
        if o.Stale? then Seek(v, if r.stale.None? then Drop(s', i - 1) else s', prefix, i - 1, Some(r))
        else (Touch(v, s', i - 1), Report(r, if o.Present? then Remote else o))
  }

  function Lookup(v: Env, s: State, k: Key, namespace: string): (State, Result) {
    if namespace != k.prefix.namespace then
      (s, Result(Incompatible, None, 0, 0, Some("compatibility_namespace_mismatch")))
    else
      var i := IndexOf(s.records, k);
      if i < |s.records| then (Settle(v, s, i), Report(s.records[i], Judge(v, s, s.records[i])))
      else Seek(v, s, k.prefix, |s.records|, None)
  }

  datatype Confirmation = Available(tokens: int, bytes: int) | PartialOnly(tokens: int, bytes: int) | Absent | Outdated(detail: string)

  function Confirm(v: Env, s: State, k: Key): (State, Confirmation) {
    var i := IndexOf(s.records, k);
    if i == |s.records| then (s, Absent)
    else
      var r := s.records[i];
      var o := Judge(v, s, r);
      if o.Stale? then
        (if r.stale.None? then Drop(Judged(v, s, r), i) else s,
         Outdated(if r.stale.Some? then r.stale.value else "ttl_expired"))
      else
        (Touch(v, Judged(v, s, r), i),
         if o.Partial? then PartialOnly(r.reusable, r.bytes) else Available(r.reusable, r.bytes))
  }

  function Invalidate(v: Env, s: State, k: Key, reason: string): State {
    var i := IndexOf(s.records, k);
    if v.blank(reason) then s
    else if i == |s.records| then s.(beliefs := s.beliefs - {k})
    else Drop(s, i).(invalidated := s.invalidated + 1, beliefs := s.beliefs - {k})
  }

  function InvalidateNamespace(v: Env, s: State, namespace: string, reason: string): State {
    if v.blank(namespace) || v.blank(reason) then s
    else s.(records := Mark(s.records, InNamespace(namespace), reason),
            beliefs := map k | k in s.beliefs && k.prefix.namespace != namespace :: s.beliefs[k])
  }

  // ---- Runs ----

  datatype Call =
    | CallObserve(location: string, generation: string)
    | CallUpsert(key: Key, generation: string, reusable: int, bytes: int, complete: bool)
    | CallLookup(key: Key, namespace: string)
    | CallConfirm(key: Key)
    | CallInvalidate(key: Key, reason: string)
    | CallInvalidateNamespace(namespace: string, reason: string)

  function Step(v: Env, s: State, c: Call): State {
    match c
    case CallObserve(l, g) => Observe(v, s, l, g)
    case CallUpsert(k, g, n, b, full) => Upsert(v, s, k, g, n, b, full)
    case CallLookup(k, ns) => Lookup(v, s, k, ns).0
    case CallConfirm(k) => Confirm(v, s, k).0
    case CallInvalidate(k, why) => Invalidate(v, s, k, why)
    case CallInvalidateNamespace(ns, why) => InvalidateNamespace(v, s, ns, why)
  }

  function Exec(v: Env, calls: seq<Call>): State {
    if calls == [] then Empty else Step(v, Exec(v, calls[..|calls| - 1]), calls[|calls| - 1])
  }

  // ---- What every call keeps ----

  ghost predicate Unique(rs: seq<Record>) {
    forall i, j :: 0 <= i < j < |rs| ==> rs[i].key != rs[j].key
  }

  ghost predicate Recency(rs: seq<Record>, limit: real) {
    && (forall i, j :: 0 <= i < j < |rs| ==> rs[i].lastAccessed <= rs[j].lastAccessed)
    && (forall i :: 0 <= i < |rs| ==> rs[i].lastAccessed <= limit)
  }

  /** A record carries no stale reason exactly while the unbounded directory believes it. */
  ghost predicate Believed(s: State, r: Record) {
    && r.key.location in s.generations
    && (r.stale.None? <==> r.key in s.beliefs)
    && (r.stale.None? ==>
          && s.beliefs[r.key] == Belief(r.reusable, r.bytes, r.complete, r.observedAt)
          && r.generation == s.generations[r.key.location])
  }

  ghost predicate Believable(s: State) {
    && (forall i :: 0 <= i < |s.records| ==> Believed(s, s.records[i]))
    && (forall k :: k in s.beliefs ==> k.location in s.generations)
  }

  predicate Conserved(s: State) {
    s.inserted == |s.records| + s.capacityEvictions + s.ttlEvictions + s.invalidated
  }

  ghost predicate Inv(v: Env, s: State) {
    && Unique(s.records) && Recency(s.records, v.clock(s.ticks))
    && Believable(s) && Conserved(s) && |s.records| <= v.capacity
  }

  lemma WithoutIndex(rs: seq<Record>, i: nat)
    requires i < |rs|
    ensures forall j :: 0 <= j < |rs| - 1 ==> Without(rs, i)[j] == rs[if j < i then j else j + 1]
  {
  }

  lemma WithoutKeeps(s: State, i: nat, limit: real)
    requires i < |s.records| && Unique(s.records) && Recency(s.records, limit) && Believable(s)
    ensures var rs := Without(s.records, i);
            && Unique(rs) && Recency(rs, limit) && Believable(s.(records := rs))
            && forall j :: 0 <= j < |rs| ==> rs[j].key != s.records[i].key
  {
    WithoutIndex(s.records, i);
  }

  lemma AppendKeeps(s: State, r: Record, limit: real)
    requires Unique(s.records) && Recency(s.records, r.lastAccessed) && Believable(s) && r.lastAccessed <= limit
    requires Believed(s, r) && forall j :: 0 <= j < |s.records| ==> s.records[j].key != r.key
    ensures var rs := s.records + [r]; Unique(rs) && Recency(rs, limit) && Believable(s.(records := rs))
  {
    var rs := s.records + [r];
    assert forall j :: 0 <= j < |rs| ==> rs[j] == if j < |s.records| then s.records[j] else r;
  }

  lemma LaterLimit(v: Env, s: State, n: nat)
    requires Sound(v) && Recency(s.records, v.clock(s.ticks)) && n >= s.ticks
    ensures Recency(s.records, v.clock(n))
  {
    assert v.clock(s.ticks) <= v.clock(n);
  }

  /** A record without a stale reason always carries its worker's current generation. */
  lemma FreshOnlyByAge(v: Env, s: State, i: nat)
    requires Inv(v, s) && i < |s.records| && s.records[i].stale.None?
    ensures Judge(v, s, s.records[i]).Stale? <==> v.clock(s.ticks) - s.records[i].observedAt >= v.ttl
  {
    assert Believed(s, s.records[i]);
  }

  lemma TouchKeeps(v: Env, s: State, i: nat)
    requires Sound(v) && Inv(v, s) && i < |s.records|
    ensures Inv(v, Touch(v, s, i))
  {
    var r, r' := s.records[i], s.records[i].(lastAccessed := v.clock(s.ticks));
    WithoutKeeps(s, i, v.clock(s.ticks));
    assert Believed(s, r);
    var s' := s.(records := Without(s.records, i));
    assert v.clock(s.ticks) <= v.clock(s.ticks + 1);
    AppendKeeps(s', r', v.clock(s.ticks + 1));
  }

  /** Expiry takes the record and counts it, in one go. */
  lemma ExpireKeeps(v: Env, s: State, i: nat)
    requires Sound(v) && Inv(v, s) && i < |s.records|
    requires s.records[i].stale.None? && Judge(v, s, s.records[i]).Stale?
    ensures Inv(v, Drop(Judged(v, s, s.records[i]), i))
  {
    FreshOnlyByAge(v, s, i);
    WithoutKeeps(s, i, v.clock(s.ticks));
    LaterLimit(v, s.(records := Without(s.records, i)), s.ticks + 1);
  }

  lemma JudgedKeeps(v: Env, s: State, i: nat)
    requires Sound(v) && Inv(v, s) && i < |s.records|
    requires s.records[i].stale.Some? || !Judge(v, s, s.records[i]).Stale?
    ensures Inv(v, Judged(v, s, s.records[i]))
  {
    LaterLimit(v, s, s.ticks + 1);
  }

  lemma SettleKeeps(v: Env, s: State, i: nat)
    requires Sound(v) && Inv(v, s) && i < |s.records|
    ensures Inv(v, Settle(v, s, i))
  {
    var r := s.records[i];
    if r.stale.None? && Judge(v, s, r).Stale? {
      ExpireKeeps(v, s, i);
    } else {
      JudgedKeeps(v, s, i);
      TouchKeeps(v, Judged(v, s, r), i);
    }
  }

  /** The state after the search has passed a stale record. */
  function AfterStale(v: Env, s: State, i: nat): (next: State)
    requires 0 < i <= |s.records|
    ensures next.beliefs == s.beliefs && s.ticks <= next.ticks && i - 1 <= |next.records|
    ensures forall m :: 0 <= m < i - 1 ==> next.records[m] == s.records[m]
  {
    var r := s.records[i - 1];
    if r.stale.None? then Drop(Judged(v, s, r), i - 1) else s
  }

  lemma StaleKeeps(v: Env, s: State, i: nat)
    requires Sound(v) && Inv(v, s) && 0 < i <= |s.records| && Judge(v, s, s.records[i - 1]).Stale?
    ensures Inv(v, AfterStale(v, s, i))
  {
    if s.records[i - 1].stale.None? {
      ExpireKeeps(v, s, i - 1);
    }
  }

  lemma SeekIsAfterStale(v: Env, s: State, prefix: Identity, i: nat, seen: Option<Record>)
    requires 0 < i <= |s.records| && s.records[i - 1].key.prefix == prefix && Judge(v, s, s.records[i - 1]).Stale?
    ensures Seek(v, s, prefix, i, seen) == Seek(v, AfterStale(v, s, i), prefix, i - 1, Some(s.records[i - 1]))
  {
  }

  lemma SeekSkipsOther(v: Env, s: State, prefix: Identity, i: nat, seen: Option<Record>)
    requires 0 < i <= |s.records| && s.records[i - 1].key.prefix != prefix
    ensures Seek(v, s, prefix, i, seen) == Seek(v, s, prefix, i - 1, seen)
  {
  }

  lemma SeekTakesFresh(v: Env, s: State, prefix: Identity, i: nat, seen: Option<Record>)
    requires 0 < i <= |s.records| && s.records[i - 1].key.prefix == prefix && !Judge(v, s, s.records[i - 1]).Stale?
    ensures Seek(v, s, prefix, i, seen).0 == Touch(v, Judged(v, s, s.records[i - 1]), i - 1)
  {
  }

  lemma FreshKeeps(v: Env, s: State, i: nat)
    requires Sound(v) && Inv(v, s) && 0 < i <= |s.records| && !Judge(v, s, s.records[i - 1]).Stale?
    ensures Inv(v, Touch(v, Judged(v, s, s.records[i - 1]), i - 1))
  {
    JudgedKeeps(v, s, i - 1);
    TouchKeeps(v, Judged(v, s, s.records[i - 1]), i - 1);
  }

  lemma {:induction false} SeekKeeps(v: Env, s: State, prefix: Identity, i: nat, seen: Option<Record>, s': State)
    requires Sound(v) && Inv(v, s) && i <= |s.records| && s' == Seek(v, s, prefix, i, seen).0
    ensures Inv(v, s')
    decreases i
  {
    if i == 0 {
    } else if s.records[i - 1].key.prefix != prefix {
      SeekSkipsOther(v, s, prefix, i, seen);
      SeekKeeps(v, s, prefix, i - 1, seen, s');
    } else if Judge(v, s, s.records[i - 1]).Stale? {
      StaleKeeps(v, s, i);
      SeekIsAfterStale(v, s, prefix, i, seen);
      SeekKeeps(v, AfterStale(v, s, i), prefix, i - 1, Some(s.records[i - 1]), s');
    } else {
      FreshKeeps(v, s, i);
      SeekTakesFresh(v, s, prefix, i, seen);
    }
  }

  lemma MarkKeeps(v: Env, s: State, hit: Record -> bool, reason: string, s': State)
    requires Inv(v, s)
    requires s'.records == Mark(s.records, hit, reason) && s'.ticks == s.ticks
    requires s'.inserted == s.inserted && s'.capacityEvictions == s.capacityEvictions
    requires s'.ttlEvictions == s.ttlEvictions && s'.invalidated == s.invalidated
    requires s.generations.Keys <= s'.generations.Keys
    requires forall k :: k in s'.beliefs ==> k in s.beliefs && s'.beliefs[k] == s.beliefs[k]
    requires forall i :: 0 <= i < |s.records| ==>
               (s.records[i].key in s'.beliefs <==> s.records[i].key in s.beliefs && !hit(s.records[i]))
    requires forall i :: 0 <= i < |s.records| && !hit(s.records[i]) ==>
               s.records[i].key.location in s.generations
               && s'.generations[s.records[i].key.location] == s.generations[s.records[i].key.location]
    ensures Inv(v, s')
  {
    forall i | 0 <= i < |s'.records|
      ensures Believed(s', s'.records[i])
    {
      assert Believed(s, s.records[i]);
    }
  }

  lemma ObserveKeeps(v: Env, s: State, location: string, generation: string)
    requires Inv(v, s)
    ensures Inv(v, Observe(v, s, location, generation))
  {
    var s' := Observe(v, s, location, generation);
    assert forall i :: 0 <= i < |s.records| ==> Believed(s, s.records[i]);
    if !v.blank(location) && !v.blank(generation) {
      if Renews(s, location, generation) {
        MarkKeeps(v, s, AtLocation(location), "worker_generation_changed", s');
      } else {
        SameGenerationKeeps(v, s, location, generation);
      }
    }
  }

  lemma SameGenerationKeeps(v: Env, s: State, location: string, generation: string)
    requires Inv(v, s) && !Renews(s, location, generation)
    ensures Inv(v, s.(generations := s.generations[location := generation]))
  {
    var s' := s.(generations := s.generations[location := generation]);
    forall i | 0 <= i < |s'.records|
      ensures Believed(s', s'.records[i])
    {
      assert Believed(s, s.records[i]);
    }
  }

  lemma {:induction false} EvictKeeps(v: Env, s: State)
    requires Sound(v) && Unique(s.records) && Recency(s.records, v.clock(s.ticks)) && Believable(s) && Conserved(s)
    ensures Inv(v, Evict(v, s))
    decreases |s.records|
  {
    if |s.records| <= v.capacity {
    } else {
      EvictKeeps(v, s.(records := s.records[1..], capacityEvictions := s.capacityEvictions + 1));
    }
  }

  lemma StoredKeeps(v: Env, s: State, r: Record)
    requires Sound(v) && Inv(v, s)
    requires r.stale.None? && r.lastAccessed == v.clock(s.ticks)
    requires r.key.location in s.generations && s.generations[r.key.location] == r.generation
    ensures var s' := Stored(v, s, r);
            Unique(s'.records) && Recency(s'.records, v.clock(s'.ticks)) && Believable(s') && Conserved(s')
  {
    var i := IndexOf(s.records, r.key);
    var old' := if i < |s.records| then Without(s.records, i) else s.records;
    if i < |s.records| {
      WithoutKeeps(s, i, v.clock(s.ticks));
    }
    var s1 := s.(records := old', beliefs := s.beliefs[r.key := Belief(r.reusable, r.bytes, r.complete, r.observedAt)]);
    forall j | 0 <= j < |old'|
      ensures Believed(s1, old'[j])
    {
      assert Believed(s.(records := old'), old'[j]);
    }
    assert v.clock(s.ticks) <= v.clock(s.ticks + 1);
    AppendKeeps(s1, r, v.clock(s.ticks + 1));
  }

  lemma UpsertKeeps(v: Env, s: State, k: Key, g: string, n: int, b: int, full: bool)
    requires Sound(v) && Inv(v, s)
    ensures Inv(v, Upsert(v, s, k, g, n, b, full))
  {
    if !UpsertRefused(v, s, k, g, n, b) {
      var r := NewRecord(v, s, k, g, n, b, full);
      StoredKeeps(v, s, r);
      EvictKeeps(v, Stored(v, s, r));
    }
  }

  lemma InvalidateKeeps(v: Env, s: State, k: Key, reason: string)
    requires Inv(v, s)
    ensures Inv(v, Invalidate(v, s, k, reason))
  {
    var i := IndexOf(s.records, k);
    var s' := Invalidate(v, s, k, reason);
    if !v.blank(reason) {
      if i < |s.records| {
        WithoutKeeps(s, i, v.clock(s.ticks));
        WithoutIndex(s.records, i);
      }
      forall j | 0 <= j < |s'.records|
        ensures Believed(s', s'.records[j])
      {
        assert Believed(s, s.records[if i == |s.records| || j < i then j else j + 1]);
      }
    }
  }

  lemma LookupKeeps(v: Env, s: State, k: Key, ns: string)
    requires Sound(v) && Inv(v, s)
    ensures Inv(v, Lookup(v, s, k, ns).0)
  {
    if ns == k.prefix.namespace {
      var i := IndexOf(s.records, k);
      if i < |s.records| {
        SettleKeeps(v, s, i);
      } else {
        SeekKeeps(v, s, k.prefix, |s.records|, None, Seek(v, s, k.prefix, |s.records|, None).0);
      }
    }
  }

  lemma ConfirmKeeps(v: Env, s: State, k: Key)
    requires Sound(v) && Inv(v, s)
    ensures Inv(v, Confirm(v, s, k).0)
  {
    var i := IndexOf(s.records, k);
    if i < |s.records| && !(s.records[i].stale.Some? && Judge(v, s, s.records[i]).Stale?) {
      SettleKeeps(v, s, i);
      assert Confirm(v, s, k).0 == Settle(v, s, i);
    }
  }

  lemma InvalidateNamespaceKeeps(v: Env, s: State, ns: string, why: string)
    requires Inv(v, s)
    ensures Inv(v, InvalidateNamespace(v, s, ns, why))
  {
    if !v.blank(ns) && !v.blank(why) {
      assert forall i :: 0 <= i < |s.records| ==> Believed(s, s.records[i]);
      MarkKeeps(v, s, InNamespace(ns), why, InvalidateNamespace(v, s, ns, why));
    }
  }

  lemma StepKeeps(v: Env, s: State, c: Call)
    requires Sound(v) && Inv(v, s)
    ensures Inv(v, Step(v, s, c))
  {
    match c
    case CallObserve(l, g) => ObserveKeeps(v, s, l, g);
    case CallUpsert(k, g, n, b, full) => UpsertKeeps(v, s, k, g, n, b, full);
    case CallLookup(k, ns) => LookupKeeps(v, s, k, ns);
    case CallConfirm(k) => ConfirmKeeps(v, s, k);
    case CallInvalidate(k, why) => InvalidateKeeps(v, s, k, why);
    case CallInvalidateNamespace(ns, why) => InvalidateNamespaceKeeps(v, s, ns, why);
  }

  lemma {:induction false} ExecKeeps(v: Env, calls: seq<Call>)
    requires Sound(v)
    ensures Inv(v, Exec(v, calls))
  {
    if calls == [] {
    } else {
      ExecKeeps(v, calls[..|calls| - 1]);
      StepKeeps(v, Exec(v, calls[..|calls| - 1]), calls[|calls| - 1]);
    }
  }

  /** Conservation: every key ever inserted is still there, was evicted, expired or was invalidated. */
  lemma Conservation(v: Env, calls: seq<Call>)
    requires Sound(v)
    ensures var s := Exec(v, calls);
            && s.inserted == |s.records| + s.capacityEvictions + s.ttlEvictions + s.invalidated
            && |s.records| <= v.capacity
            && forall i, j :: 0 <= i < j < |s.records| ==>
                 s.records[i].key != s.records[j].key && s.records[i].lastAccessed <= s.records[j].lastAccessed
  {
    ExecKeeps(v, calls);
  }

  // ---- What the answers mean ----

  /** The unbounded directory holds this belief and it was younger than the ttl when it was judged. */
  ghost predicate Vouched(v: Env, s: State, s': State, k: Key, tokens: int, bytes: int, complete: bool) {
    && k in s.beliefs
    && s.beliefs[k].reusable == tokens && s.beliefs[k].bytes == bytes && s.beliefs[k].complete == complete
    && exists n: nat :: s.ticks <= n < s'.ticks && v.clock(n) - s.beliefs[k].observedAt < v.ttl
  }

  /** Every record of the prefix in this range is marked stale or has expired by now. */
  ghost predicate AllStale(v: Env, rs: seq<Record>, lo: int, hi: int, prefix: Identity, now: real) {
    forall m :: 0 <= lo <= m < hi <= |rs| && rs[m].key.prefix == prefix ==>
                  rs[m].stale.Some? || now - rs[m].observedAt >= v.ttl
  }

  lemma JudgedFresh(v: Env, s: State, i: nat, s': State)
    requires Inv(v, s) && i < |s.records| && !Judge(v, s, s.records[i]).Stale? && s'.ticks > s.ticks
    ensures var r := s.records[i]; Vouched(v, s, s', r.key, r.reusable, r.bytes, Judge(v, s, r).Present?)
  {
    assert Believed(s, s.records[i]);
    assert v.clock(s.ticks) - s.records[i].observedAt < v.ttl;
  }

  lemma {:induction false} SeekOnlyReads(v: Env, s: State, prefix: Identity, i: nat, seen: Option<Record>)
    requires i <= |s.records|
    ensures var s' := Seek(v, s, prefix, i, seen).0;
            s'.ticks >= s.ticks && s'.beliefs == s.beliefs && s'.generations == s.generations
    decreases i
  {
    if i == 0 {
    } else {
      var r := s.records[i - 1];
      if r.key.prefix != prefix {
        SeekOnlyReads(v, s, prefix, i - 1, seen);
      } else if Judge(v, s, r).Stale? {
        SeekOnlyReads(v, if r.stale.None? then Drop(Judged(v, s, r), i - 1) else s, prefix, i - 1, Some(r));
      }
    }
  }

  ghost predicate Found(v: Env, s: State, s': State, prefix: Identity, i: nat, res: Result, j: nat)
    requires i <= |s.records|
  {
    && j < i && s.records[j].key.prefix == prefix
    && res.source == Some(s.records[j].key.location)
    && Vouched(v, s, s', s.records[j].key, res.tokens, res.bytes, res.outcome.Remote?)
    && AllStale(v, s.records, j + 1, i, prefix, v.clock(s'.ticks))
  }

  ghost predicate SeekAnswer(v: Env, s: State, s': State, prefix: Identity, i: nat, seen: Option<Record>, res: Result)
    requires i <= |s.records|
  {
    if res.outcome.Remote? || res.outcome.Partial? then exists j: nat :: Found(v, s, s', prefix, i, res, j)
    else
      && (res.outcome.Stale? || res.outcome.Missing?)
      && AllStale(v, s.records, 0, i, prefix, v.clock(s'.ticks))
      && (res.outcome.Missing? ==> seen.None? && forall m :: 0 <= m < i ==> s.records[m].key.prefix != prefix)
  }

  /** The answer of the remaining search is the answer when the record at `i - 1` does not count. */
  lemma SeekPasses(v: Env, s: State, next: State, s': State, prefix: Identity, i: nat,
                   seen: Option<Record>, seen': Option<Record>, res: Result)
    requires 0 < i <= |s.records| && i - 1 <= |next.records|
    requires forall m :: 0 <= m < i - 1 ==> next.records[m] == s.records[m]
    requires next.beliefs == s.beliefs && s.ticks <= next.ticks
    requires AllStale(v, s.records, i - 1, i, prefix, v.clock(s'.ticks))
    requires seen'.None? ==> seen.None? && s.records[i - 1].key.prefix != prefix
    requires SeekAnswer(v, next, s', prefix, i - 1, seen', res)
    ensures SeekAnswer(v, s, s', prefix, i, seen, res)
  {
    if res.outcome.Remote? || res.outcome.Partial? {
      var j: nat :| Found(v, next, s', prefix, i - 1, res, j);
      assert Found(v, s, s', prefix, i, res, j);
    }
  }

  lemma StaleByNow(v: Env, s: State, i: nat, s': State)
    requires Sound(v) && Inv(v, s) && i < |s.records| && Judge(v, s, s.records[i]).Stale? && s.ticks <= s'.ticks
    ensures AllStale(v, s.records, i, i + 1, s.records[i].key.prefix, v.clock(s'.ticks))
  {
    if s.records[i].stale.None? {
      FreshOnlyByAge(v, s, i);
      assert v.clock(s.ticks) <= v.clock(s'.ticks);
    }
  }

  /**
   * The remote search is exact: it answers for the most recently used record of the prefix that is
   * not stale, all later ones being stale; and it gives up only when there is none.
   */
  lemma {:induction false} SeekIsExact(v: Env, s: State, prefix: Identity, i: nat, seen: Option<Record>)
    requires Sound(v) && Inv(v, s) && i <= |s.records|
    ensures var (s', res) := Seek(v, s, prefix, i, seen); SeekAnswer(v, s, s', prefix, i, seen, res)
    decreases i
  {
    if i == 0 {
    } else {
      var r := s.records[i - 1];
      var (s', res) := Seek(v, s, prefix, i, seen);
      if r.key.prefix != prefix {
        SeekIsExact(v, s, prefix, i - 1, seen);
        SeekPasses(v, s, s, s', prefix, i, seen, seen, res);
      } else if Judge(v, s, r).Stale? {
        var next := AfterStale(v, s, i);
        StaleKeeps(v, s, i);
        SeekIsExact(v, next, prefix, i - 1, Some(r));
        SeekSkipsStale(v, s, prefix, i, seen, s', res);
      } else {
        SeekFinds(v, s, prefix, i, seen, s', res);
      }
    }
  }

  lemma SeekSkipsStale(v: Env, s: State, prefix: Identity, i: nat, seen: Option<Record>, s': State, res: Result)
    requires Sound(v) && Inv(v, s) && 0 < i <= |s.records| && (s', res) == Seek(v, s, prefix, i, seen)
    requires s.records[i - 1].key.prefix == prefix && Judge(v, s, s.records[i - 1]).Stale?
    requires var next := AfterStale(v, s, i);
             var (s1, res1) := Seek(v, next, prefix, i - 1, Some(s.records[i - 1]));
             SeekAnswer(v, next, s1, prefix, i - 1, Some(s.records[i - 1]), res1)
    ensures SeekAnswer(v, s, s', prefix, i, seen, res)
  {
    var r, next := s.records[i - 1], AfterStale(v, s, i);
    SeekIsAfterStale(v, s, prefix, i, seen);
    SeekOnlyReads(v, next, prefix, i - 1, Some(r));
    StaleByNow(v, s, i - 1, s');
    SeekPasses(v, s, next, s', prefix, i, seen, Some(r), res);
  }

  lemma SeekFinds(v: Env, s: State, prefix: Identity, i: nat, seen: Option<Record>, s': State, res: Result)
    requires Inv(v, s) && 0 < i <= |s.records| && (s', res) == Seek(v, s, prefix, i, seen)
    requires s.records[i - 1].key.prefix == prefix && !Judge(v, s, s.records[i - 1]).Stale?
    ensures SeekAnswer(v, s, s', prefix, i, seen, res)
  {
    JudgedFresh(v, s, i - 1, s');
    assert Found(v, s, s', prefix, i, res, i - 1);
  }

  /**
   * Freshness: after any calls, a lookup reports present, remote or partial only for a belief that
   * the unbounded directory still holds -- stored after the last invalidation, namespace
   * invalidation or worker change that covers it -- and that is younger than the ttl.
   */
  lemma LookupIsFresh(v: Env, calls: seq<Call>, k: Key, namespace: string)
    requires Sound(v)
    ensures var s := Exec(v, calls);
            var (s', r) := Lookup(v, s, k, namespace);
            && (r.outcome.Present? || r.outcome.Remote? || r.outcome.Partial? ==>
                  && namespace == k.prefix.namespace && r.source.Some?
                  && Vouched(v, s, s', Key(k.prefix, r.source.value), r.tokens, r.bytes, !r.outcome.Partial?)
                  && (r.outcome.Present? ==> r.source.value == k.location)
                  && (r.outcome.Remote? ==> r.source.value != k.location))
            && (r.outcome.Missing? ==> forall x :: x in s.records ==> x.key.prefix != k.prefix)
  {
    ExecKeeps(v, calls);
    var s := Exec(v, calls);
    var i := IndexOf(s.records, k);
    if namespace == k.prefix.namespace {
      if i == |s.records| {
        SeekIsExact(v, s, k.prefix, i, None);
        var (s', r) := Seek(v, s, k.prefix, i, None);
        if r.outcome.Remote? || r.outcome.Partial? {
          var j: nat :| Found(v, s, s', k.prefix, i, r, j);
          assert s.records[j].key == Key(k.prefix, r.source.value);
        }
      } else if !Judge(v, s, s.records[i]).Stale? {
        JudgedFresh(v, s, i, Settle(v, s, i));
      }
    }
  }

  /** A confirmation of availability means a complete, current, unexpired belief; partial ones are told apart. */
  lemma ConfirmIsFresh(v: Env, calls: seq<Call>, k: Key)
    requires Sound(v)
    ensures var s := Exec(v, calls);
            var (s', r) := Confirm(v, s, k);
            && (r.Available? ==> Vouched(v, s, s', k, r.tokens, r.bytes, true))
            && (r.PartialOnly? ==> Vouched(v, s, s', k, r.tokens, r.bytes, false))
            && (r.Absent? <==> forall x :: x in s.records ==> x.key != k)
            && (r.Outdated? ==> k !in s.beliefs || v.clock(s.ticks) - s.beliefs[k].observedAt >= v.ttl)
  {
    ExecKeeps(v, calls);
    var s := Exec(v, calls);
    var i := IndexOf(s.records, k);
    if i < |s.records| {
      assert Believed(s, s.records[i]);
      if !Judge(v, s, s.records[i]).Stale? {
        JudgedFresh(v, s, i, Confirm(v, s, k).0);
      }
    }
  }

  // ---- Freshness in terms of the calls alone ----

  /** The generation last observed for a location. */
  function LastGeneration(v: Env, calls: seq<Call>, location: string): Option<string> {
    if calls == [] then None
    else
      var c := calls[|calls| - 1];
      if c.CallObserve? && c.location == location && !v.blank(c.location) && !v.blank(c.generation) then Some(c.generation)
      else LastGeneration(v, calls[..|calls| - 1], location)
  }

  /** The call stores `k`, when `current` is the generation of its location. */
  predicate Accepts(v: Env, c: Call, k: Key, current: Option<string>) {
    && c.CallUpsert? && c.key == k && !v.blank(k.location) && !v.blank(c.generation)
    && 0 < c.reusable <= k.prefix.tokenCount && c.bytes > 0 && current == Some(c.generation)
  }

  /** The call takes back what was stored for `k`: a new generation of its worker, or an invalidation. */
  predicate Withdraws(v: Env, c: Call, k: Key, current: Option<string>) {
    || (c.CallObserve? && c.location == k.location && !v.blank(c.location) && !v.blank(c.generation)
        && current.Some? && current.value != c.generation)
    || (c.CallInvalidate? && c.key == k && !v.blank(c.reason))
    || (c.CallInvalidateNamespace? && c.namespace == k.prefix.namespace && !v.blank(c.namespace) && !v.blank(c.reason))
  }

  /** Call number `m` stored `k`, and nothing after it stored `k` anew or took it back. */
  predicate Stands(v: Env, calls: seq<Call>, k: Key, m: nat) {
    && m < |calls| && Accepts(v, calls[m], k, LastGeneration(v, calls[..m], k.location))
    && forall j :: m < j < |calls| ==>
         !Accepts(v, calls[j], k, LastGeneration(v, calls[..j], k.location))
         && !Withdraws(v, calls[j], k, LastGeneration(v, calls[..j], k.location))
  }

  /** What call number `m`, an upsert, stores. */
  function StoredBy(v: Env, calls: seq<Call>, m: nat): Belief
    requires m < |calls| && calls[m].CallUpsert?
  {
    Belief(calls[m].reusable, calls[m].bytes, calls[m].complete, v.clock(Exec(v, calls[..m]).ticks))
  }

  function GenerationOf(s: State, location: string): Option<string> {
    if location in s.generations then Some(s.generations[location]) else None
  }

  lemma {:induction false} EvictOnlyDrops(v: Env, s: State)
    ensures Evict(v, s).beliefs == s.beliefs && Evict(v, s).generations == s.generations
    decreases |s.records|
  {
    if |s.records| <= v.capacity || s.records == [] {
    } else {
      EvictOnlyDrops(v, s.(records := s.records[1..], capacityEvictions := s.capacityEvictions + 1));
    }
  }

  lemma LookupOnlyReads(v: Env, s: State, k: Key, namespace: string)
    ensures Lookup(v, s, k, namespace).0.beliefs == s.beliefs && Lookup(v, s, k, namespace).0.generations == s.generations
  {
    SeekOnlyReads(v, s, k.prefix, |s.records|, None);
  }

  /** The generation of a location after a call. */
  function NextGeneration(v: Env, c: Call, location: string, current: Option<string>): Option<string> {
    if c.CallObserve? && c.location == location && !v.blank(c.location) && !v.blank(c.generation) then Some(c.generation)
    else current
  }

  /** What one call does to the generation of `k`'s location and to the belief about `k`. */
  ghost predicate Moves(v: Env, s: State, c: Call, k: Key, s': State) {
    var current := GenerationOf(s, k.location);
    && GenerationOf(s', k.location) == NextGeneration(v, c, k.location, current)
    && (k in s'.beliefs <==> Accepts(v, c, k, current) || (k in s.beliefs && !Withdraws(v, c, k, current)))
    && (Accepts(v, c, k, current) ==> s'.beliefs[k] == Belief(c.reusable, c.bytes, c.complete, v.clock(s.ticks)))
    && (k in s'.beliefs && !Accepts(v, c, k, current) ==> s'.beliefs[k] == s.beliefs[k])
  }

  lemma UpsertMoves(v: Env, s: State, c: Call, k: Key, s': State)
    requires c.CallUpsert? && s' == Step(v, s, c)
    ensures Moves(v, s, c, k, s')
  {
    if !UpsertRefused(v, s, c.key, c.generation, c.reusable, c.bytes) {
      var r := NewRecord(v, s, c.key, c.generation, c.reusable, c.bytes, c.complete);
      EvictOnlyDrops(v, Stored(v, s, r));
      assert s'.beliefs == s.beliefs[c.key := Belief(c.reusable, c.bytes, c.complete, v.clock(s.ticks))];
      assert s'.generations == s.generations;
    }
  }

  lemma ObserveMoves(v: Env, s: State, c: Call, k: Key, s': State)
    requires c.CallObserve? && s' == Step(v, s, c)
    ensures Moves(v, s, c, k, s')
  {
  }

  lemma ConfirmMoves(v: Env, s: State, c: Call, k: Key, s': State)
    requires c.CallConfirm? && s' == Step(v, s, c)
    ensures Moves(v, s, c, k, s')
  {
  }

  lemma InvalidateMoves(v: Env, s: State, c: Call, k: Key, s': State)
    requires (c.CallInvalidate? || c.CallInvalidateNamespace?) && s' == Step(v, s, c)
    ensures Moves(v, s, c, k, s')
  {
  }

  lemma StepMoves(v: Env, s: State, c: Call, k: Key, s': State)
    requires s' == Step(v, s, c)
    ensures Moves(v, s, c, k, s')
  {
    match c
    case CallObserve(l, g) => ObserveMoves(v, s, c, k, s');
    case CallUpsert(k', g, n, b, full) => UpsertMoves(v, s, c, k, s');
    case CallLookup(k', ns) => LookupOnlyReads(v, s, k', ns);
    case CallConfirm(k') => ConfirmMoves(v, s, c, k, s');
    case CallInvalidate(k', why) => InvalidateMoves(v, s, c, k, s');
    case CallInvalidateNamespace(ns, why) => InvalidateMoves(v, s, c, k, s');
  }

  lemma {:induction false} GenerationsAreLast(v: Env, calls: seq<Call>, k: Key)
    ensures GenerationOf(Exec(v, calls), k.location) == LastGeneration(v, calls, k.location)
  {
    if calls == [] {
    } else {
      var front, c := calls[..|calls| - 1], calls[|calls| - 1];
      GenerationsAreLast(v, front, k);
      StepMoves(v, Exec(v, front), c, k, Exec(v, calls));
    }
  }

  /** A call that does not store `k` leaves what stands standing, unless it takes it back. */
  lemma StandsLonger(v: Env, calls: seq<Call>, c: Call, k: Key, m: nat)
    requires !Accepts(v, c, k, LastGeneration(v, calls, k.location))
    ensures Stands(v, calls + [c], k, m) <==> Stands(v, calls, k, m) && !Withdraws(v, c, k, LastGeneration(v, calls, k.location))
    ensures m < |calls| ==> (calls + [c])[..m] == calls[..m] && (calls + [c])[m] == calls[m]
  {
    var more := calls + [c];
    assert more[..|calls|] == calls && more[|calls|] == c;
    assert forall j :: 0 <= j <= |calls| ==> more[..j] == calls[..j];
    assert forall j :: 0 <= j < |calls| ==> more[j] == calls[j];
  }

  lemma StandsAnew(v: Env, calls: seq<Call>, c: Call, k: Key, m: nat)
    requires Accepts(v, c, k, LastGeneration(v, calls, k.location))
    ensures Stands(v, calls + [c], k, m) <==> m == |calls|
  {
    var more := calls + [c];
    assert more[..|calls|] == calls && more[|calls|] == c;
  }

  ghost predicate StandsSomewhere(v: Env, calls: seq<Call>, k: Key) {
    exists m: nat :: Stands(v, calls, k, m)
  }

  /** The belief about `k` is what stands among the calls. */
  ghost predicate BeliefStands(v: Env, calls: seq<Call>, k: Key) {
    && (k in Exec(v, calls).beliefs <==> StandsSomewhere(v, calls, k))
    && forall m: nat :: Stands(v, calls, k, m) ==> k in Exec(v, calls).beliefs && Exec(v, calls).beliefs[k] == StoredBy(v, calls, m)
  }

  lemma BeliefStandsAnew(v: Env, front: seq<Call>, c: Call, k: Key, s': State)
    requires Accepts(v, c, k, LastGeneration(v, front, k.location))
    requires s' == Exec(v, front + [c]) && Moves(v, Exec(v, front), c, k, s')
    requires GenerationOf(Exec(v, front), k.location) == LastGeneration(v, front, k.location)
    ensures BeliefStands(v, front + [c], k)
  {
    StandsAnew(v, front, c, k, |front|);
    assert (front + [c])[..|front|] == front;
    forall m: nat | Stands(v, front + [c], k, m)
      ensures m == |front|
    {
      StandsAnew(v, front, c, k, m);
    }
  }

  lemma BeliefStandsLonger(v: Env, front: seq<Call>, c: Call, k: Key, s': State)
    requires !Accepts(v, c, k, LastGeneration(v, front, k.location)) && BeliefStands(v, front, k)
    requires s' == Exec(v, front + [c]) && Moves(v, Exec(v, front), c, k, s')
    requires GenerationOf(Exec(v, front), k.location) == LastGeneration(v, front, k.location)
    ensures BeliefStands(v, front + [c], k)
  {
    forall m: nat
      ensures Stands(v, front + [c], k, m) <==> Stands(v, front, k, m) && !Withdraws(v, c, k, LastGeneration(v, front, k.location))
      ensures Stands(v, front + [c], k, m) ==> StoredBy(v, front + [c], m) == StoredBy(v, front, m)
    {
      StandsLonger(v, front, c, k, m);
    }
    if k in s'.beliefs {
      var m: nat :| Stands(v, front, k, m);
      assert Stands(v, front + [c], k, m);
    }
  }

  /** The unbounded directory believes exactly what stands among the calls. */
  lemma {:induction false} BeliefsStand(v: Env, calls: seq<Call>, k: Key)
    ensures BeliefStands(v, calls, k)
  {
    if calls == [] {
    } else {
      var front, c := calls[..|calls| - 1], calls[|calls| - 1];
      assert calls == front + [c];
      BeliefsStand(v, front, k);
      GenerationsAreLast(v, front, k);
      StepMoves(v, Exec(v, front), c, k, Exec(v, calls));
      if Accepts(v, c, k, LastGeneration(v, front, k.location)) {
        BeliefStandsAnew(v, front, c, k, Exec(v, calls));
      } else {
        BeliefStandsLonger(v, front, c, k, Exec(v, calls));
      }
    }
  }

  /** Call number `m` stored this, it stands, and it was younger than the ttl during the answer. */
  ghost predicate StandsFresh(v: Env, calls: seq<Call>, s': State, k: Key, m: nat, tokens: int, bytes: int, complete: bool) {
    && Stands(v, calls, k, m)
    && calls[m].reusable == tokens && calls[m].bytes == bytes && calls[m].complete == complete
    && exists n: nat :: Exec(v, calls).ticks <= n < s'.ticks && v.clock(n) - v.clock(Exec(v, calls[..m]).ticks) < v.ttl
  }

  ghost predicate StoredFresh(v: Env, calls: seq<Call>, s': State, k: Key, tokens: int, bytes: int, complete: bool) {
    exists m: nat :: StandsFresh(v, calls, s', k, m, tokens, bytes, complete)
  }

  lemma VouchedStands(v: Env, calls: seq<Call>, s': State, k: Key, tokens: int, bytes: int, complete: bool)
    requires Vouched(v, Exec(v, calls), s', k, tokens, bytes, complete)
    ensures StoredFresh(v, calls, s', k, tokens, bytes, complete)
  {
    BeliefsStand(v, calls, k);
    var m: nat :| Stands(v, calls, k, m);
    assert Exec(v, calls).beliefs[k] == StoredBy(v, calls, m);
    assert StandsFresh(v, calls, s', k, m, tokens, bytes, complete);
  }

  /**
   * Freshness over the calls: what a lookup reports was stored by an accepted upsert of that key in the list, no later
   * call stored it anew, invalidated it, invalidated its namespace or renewed its worker, and it is younger than the ttl.
   */
  lemma LookupStands(v: Env, calls: seq<Call>, k: Key, namespace: string)
    requires Sound(v)
    ensures var (s', r) := Lookup(v, Exec(v, calls), k, namespace);
            r.outcome.Present? || r.outcome.Remote? || r.outcome.Partial? ==>
              r.source.Some? && StoredFresh(v, calls, s', Key(k.prefix, r.source.value), r.tokens, r.bytes, !r.outcome.Partial?)
  {
    LookupIsFresh(v, calls, k, namespace);
    var (s', r) := Lookup(v, Exec(v, calls), k, namespace);
    if r.outcome.Present? || r.outcome.Remote? || r.outcome.Partial? {
      VouchedStands(v, calls, s', Key(k.prefix, r.source.value), r.tokens, r.bytes, !r.outcome.Partial?);
    }
  }

  lemma ConfirmStands(v: Env, calls: seq<Call>, k: Key)
    requires Sound(v)
    ensures var (s', r) := Confirm(v, Exec(v, calls), k);
            && (r.Available? ==> StoredFresh(v, calls, s', k, r.tokens, r.bytes, true))
            && (r.PartialOnly? ==> StoredFresh(v, calls, s', k, r.tokens, r.bytes, false))
  {
    ConfirmIsFresh(v, calls, k);
    var (s', r) := Confirm(v, Exec(v, calls), k);
    if r.Available? || r.PartialOnly? {
      VouchedStands(v, calls, s', k, r.tokens, r.bytes, r.Available?);
    }
  }

  // ---- Every answer, decided by the calls ----

  ghost predicate Holds(s: State, k: Key) {
    exists i :: 0 <= i < |s.records| && s.records[i].key == k
  }

  function ReasonOf(c: Call): string {
    match c
    case CallInvalidate(_, why) => why
    case CallInvalidateNamespace(_, why) => why
    case _ => "worker_generation_changed"
  }

  /** The reason of the first call that took `k` back since it was last stored. */
  function Withdrawal(v: Env, calls: seq<Call>, k: Key): Option<string> {
    if calls == [] then None
    else
      var front, c := calls[..|calls| - 1], calls[|calls| - 1];
      var current := LastGeneration(v, front, k.location);
      if Accepts(v, c, k, current) then None
      else if Withdrawal(v, front, k).None? && Withdraws(v, c, k, current) then Some(ReasonOf(c))
      else Withdrawal(v, front, k)
  }

  /** `s` has a record of this key with this mark. */
  ghost predicate Carries(s: State, k: Key, stale: Option<string>) {
    exists i :: 0 <= i < |s.records| && s.records[i].key == k && s.records[i].stale == stale
  }

  /** Every record of `s'` is one of `s`, with the same mark. */
  ghost predicate OnlyFrom(s: State, s': State) {
    forall j :: 0 <= j < |s'.records| ==> Carries(s, s'.records[j].key, s'.records[j].stale)
  }

  lemma OnlyFromChains(s: State, s1: State, s2: State)
    requires OnlyFrom(s, s1) && OnlyFrom(s1, s2)
    ensures OnlyFrom(s, s2)
  {
    forall j | 0 <= j < |s2.records|
      ensures Carries(s, s2.records[j].key, s2.records[j].stale)
    {
      assert Carries(s1, s2.records[j].key, s2.records[j].stale);
      var i :| 0 <= i < |s1.records| && s1.records[i].key == s2.records[j].key && s1.records[i].stale == s2.records[j].stale;
      assert Carries(s, s1.records[i].key, s1.records[i].stale);
    }
  }

  lemma TouchOnlyFrom(v: Env, s: State, i: nat)
    requires i < |s.records|
    ensures OnlyFrom(s, Touch(v, s, i)) && OnlyFrom(s, Drop(s, i))
  {
    WithoutIndex(s.records, i);
    forall j | 0 <= j < |s.records| - 1
      ensures Carries(s, Without(s.records, i)[j].key, Without(s.records, i)[j].stale)
    {
      assert Without(s.records, i)[j] == s.records[if j < i then j else j + 1];
    }
  }

  lemma SettleOnlyFrom(v: Env, s: State, i: nat)
    requires i < |s.records|
    ensures OnlyFrom(s, Settle(v, s, i))
  {
    TouchOnlyFrom(v, s, i);
    var t := Judged(v, s, s.records[i]);
    TouchOnlyFrom(v, t, i);
    assert OnlyFrom(s, t);
    OnlyFromChains(s, t, Touch(v, t, i));
    OnlyFromChains(s, t, Drop(t, i));
  }

  lemma {:induction false} SeekOnlyFrom(v: Env, s: State, prefix: Identity, i: nat, seen: Option<Record>, s': State)
    requires i <= |s.records| && s' == Seek(v, s, prefix, i, seen).0
    ensures OnlyFrom(s, s')
    decreases i
  {
    if i == 0 {
      OnlyFromItself(s);
    } else if s.records[i - 1].key.prefix != prefix {
      SeekSkipsOther(v, s, prefix, i, seen);
      SeekOnlyFrom(v, s, prefix, i - 1, seen, s');
    } else if Judge(v, s, s.records[i - 1]).Stale? {
      var next := AfterStale(v, s, i);
      StaleOnlyFrom(v, s, i, next);
      SeekIsAfterStale(v, s, prefix, i, seen);
      SeekOnlyFrom(v, next, prefix, i - 1, Some(s.records[i - 1]), s');
      OnlyFromChains(s, next, s');
    } else {
      SeekTakesFresh(v, s, prefix, i, seen);
      SettleOnlyFrom(v, s, i - 1);
      assert s' == Settle(v, s, i - 1);
    }
  }

  lemma OnlyFromItself(s: State)
    ensures OnlyFrom(s, s)
  {
    assert forall j :: 0 <= j < |s.records| ==> Carries(s, s.records[j].key, s.records[j].stale);
  }

  lemma StaleOnlyFrom(v: Env, s: State, i: nat, next: State)
    requires 0 < i <= |s.records| && Judge(v, s, s.records[i - 1]).Stale? && next == AfterStale(v, s, i)
    ensures OnlyFrom(s, next)
  {
    if s.records[i - 1].stale.None? {
      SettleOnlyFrom(v, s, i - 1);
      assert next == Settle(v, s, i - 1);
    } else {
      OnlyFromItself(s);
    }
  }

  /** What a call does to the mark of a record. */
  function NextMark(v: Env, c: Call, k: Key, current: Option<string>, was: Option<string>): Option<string> {
    if was.None? && Withdraws(v, c, k, current) then Some(ReasonOf(c)) else was
  }

  ghost predicate Traced(v: Env, s: State, c: Call, r: Record) {
    var current := GenerationOf(s, r.key.location);
    if Accepts(v, c, r.key, current) then r.stale.None?
    else exists was :: Carries(s, r.key, was) && r.stale == NextMark(v, c, r.key, current, was)
  }

  ghost predicate AllTraced(v: Env, s: State, c: Call, s': State) {
    forall j :: 0 <= j < |s'.records| ==> Traced(v, s, c, s'.records[j])
  }

  lemma ReadOnlyFrom(v: Env, s: State, c: Call, s': State)
    requires (c.CallLookup? || c.CallConfirm?) && s' == Step(v, s, c)
    ensures OnlyFrom(s, s')
  {
    var i := IndexOf(s.records, c.key);
    OnlyFromItself(s);
    if i < |s.records| {
      SettleOnlyFrom(v, s, i);
      assert s' == s || s' == Settle(v, s, i);
    } else if c.CallLookup? {
      SeekOnlyFrom(v, s, c.key.prefix, |s.records|, None, Seek(v, s, c.key.prefix, |s.records|, None).0);
    }
  }

  lemma ReadTraces(v: Env, s: State, c: Call, s': State)
    requires (c.CallLookup? || c.CallConfirm?) && OnlyFrom(s, s')
    ensures AllTraced(v, s, c, s')
  {
    forall j | 0 <= j < |s'.records|
      ensures Traced(v, s, c, s'.records[j])
    {
      assert Carries(s, s'.records[j].key, s'.records[j].stale);
    }
  }

  lemma MarkTraces(v: Env, s: State, c: Call, s': State)
    requires (c.CallObserve? || c.CallInvalidateNamespace?) && s' == Step(v, s, c)
    ensures AllTraced(v, s, c, s')
  {
    forall j | 0 <= j < |s'.records|
      ensures Traced(v, s, c, s'.records[j])
    {
      assert Carries(s, s.records[j].key, s.records[j].stale);
    }
  }

  lemma InvalidateTraces(v: Env, s: State, c: Call, s': State)
    requires Inv(v, s) && c.CallInvalidate? && s' == Step(v, s, c)
    ensures AllTraced(v, s, c, s')
  {
    var i := IndexOf(s.records, c.key);
    if i < |s.records| {
      TouchOnlyFrom(v, s, i);
      WithoutKeeps(s, i, v.clock(s.ticks));
    }
    assert OnlyFrom(s, s');
    forall j | 0 <= j < |s'.records|
      ensures Traced(v, s, c, s'.records[j])
    {
      assert Carries(s, s'.records[j].key, s'.records[j].stale);
    }
  }

  lemma {:induction false} EvictOnlyFrom(v: Env, s: State)
    ensures forall j :: 0 <= j < |Evict(v, s).records| ==> Evict(v, s).records[j] in s.records
    decreases |s.records|
  {
    if |s.records| <= v.capacity || s.records == [] {
    } else {
      EvictOnlyFrom(v, s.(records := s.records[1..], capacityEvictions := s.capacityEvictions + 1));
    }
  }

  lemma UpsertTraces(v: Env, s: State, c: Call, s': State)
    requires c.CallUpsert? && s' == Step(v, s, c) && Inv(v, s)
    ensures AllTraced(v, s, c, s')
  {
    if UpsertRefused(v, s, c.key, c.generation, c.reusable, c.bytes) {
      forall j | 0 <= j < |s'.records|
        ensures Traced(v, s, c, s'.records[j])
      {
        assert Carries(s, s'.records[j].key, s'.records[j].stale);
      }
    } else {
      var r := NewRecord(v, s, c.key, c.generation, c.reusable, c.bytes, c.complete);
      var t := Stored(v, s, r);
      EvictOnlyFrom(v, t);
      var i := IndexOf(s.records, c.key);
      if i < |s.records| {
        TouchOnlyFrom(v, s, i);
        WithoutKeeps(s, i, v.clock(s.ticks));
      }
      forall j | 0 <= j < |s'.records|
        ensures Traced(v, s, c, s'.records[j])
      {
        UpsertTracesOne(v, s, c, t, s'.records[j]);
      }
    }
  }

  lemma UpsertTracesOne(v: Env, s: State, c: Call, t: State, x: Record)
    requires c.CallUpsert? && !UpsertRefused(v, s, c.key, c.generation, c.reusable, c.bytes)
    requires t == Stored(v, s, NewRecord(v, s, c.key, c.generation, c.reusable, c.bytes, c.complete))
    requires IndexOf(s.records, c.key) < |s.records| ==> OnlyFrom(s, Drop(s, IndexOf(s.records, c.key)))
    requires IndexOf(s.records, c.key) < |s.records| ==>
               forall j :: 0 <= j < |s.records| - 1 ==> Without(s.records, IndexOf(s.records, c.key))[j].key != c.key
    requires x in t.records
    ensures Traced(v, s, c, x)
  {
    var r := t.records[|t.records| - 1];
    if x == r {
    } else {
      var i := IndexOf(s.records, c.key);
      var rest := t.records[..|t.records| - 1];
      assert x in rest;
      var j :| 0 <= j < |rest| && rest[j] == x;
      if i < |s.records| {
        assert rest == Drop(s, i).records;
        assert Carries(s, rest[j].key, rest[j].stale);
      } else {
        assert rest == s.records;
        assert Carries(s, s.records[j].key, s.records[j].stale);
      }
    }
  }

  lemma StepTraces(v: Env, s: State, c: Call, s': State)
    requires Inv(v, s) && s' == Step(v, s, c)
    ensures AllTraced(v, s, c, s')
  {
    if c.CallLookup? || c.CallConfirm? {
      ReadOnlyFrom(v, s, c, s');
    }
    match c
    case CallObserve(_, _) => MarkTraces(v, s, c, s');
    case CallUpsert(_, _, _, _, _) => UpsertTraces(v, s, c, s');
    case CallLookup(_, _) => ReadTraces(v, s, c, s');
    case CallConfirm(_) => ReadTraces(v, s, c, s');
    case CallInvalidate(_, _) => InvalidateTraces(v, s, c, s');
    case CallInvalidateNamespace(_, _) => MarkTraces(v, s, c, s');
  }

  /** Every record carries the reason of the first call that took it back since it was stored. */
  lemma {:induction false} MarksAreWithdrawals(v: Env, calls: seq<Call>)
    requires Sound(v)
    ensures forall x :: x in Exec(v, calls).records ==> x.stale == Withdrawal(v, calls, x.key)
  {
    if calls == [] {
    } else {
      var front, c := calls[..|calls| - 1], calls[|calls| - 1];
      var s, s' := Exec(v, front), Exec(v, calls);
      ExecKeeps(v, front);
      MarksAreWithdrawals(v, front);
      StepTraces(v, s, c, s');
      forall j | 0 <= j < |s'.records|
        ensures s'.records[j].stale == Withdrawal(v, calls, s'.records[j].key)
      {
        var x := s'.records[j];
        GenerationsAreLast(v, front, x.key);
        assert Traced(v, s, c, x);
      }
    }
  }

  /** The age of what call number `m` stored, at the next reading of the clock. */
  function AgeOf(v: Env, calls: seq<Call>, m: nat): real
    requires m < |calls|
  {
    v.clock(Exec(v, calls).ticks) - v.clock(Exec(v, calls[..m]).ticks)
  }

  /** Answer and effect for a held record whose upsert is call number `m` and still stands. */
  ghost predicate AnswersStanding(v: Env, calls: seq<Call>, s': State, k: Key, m: nat, r: Result)
    requires m < |calls| && calls[m].CallUpsert?
  {
    && r.source == Some(k.location) && r.tokens == calls[m].reusable && r.bytes == calls[m].bytes
    && (if AgeOf(v, calls, m) >= v.ttl then r.outcome == Stale && r.detail == Some("ttl_expired") && !Holds(s', k)
        else r.outcome == (if calls[m].complete then Present else Partial) && r.detail == None && MostRecent(v, s', k))
  }

  /** The record of `k` was touched at the last reading and is the last to be evicted. */
  ghost predicate MostRecent(v: Env, s': State, k: Key) {
    && s'.ticks > 0 && s'.records != []
    && s'.records[|s'.records| - 1].key == k
    && s'.records[|s'.records| - 1].lastAccessed == v.clock(s'.ticks - 1)
  }

  /** Answer and effect for a held record that was taken back. */
  ghost predicate AnswersWithdrawn(v: Env, calls: seq<Call>, s': State, k: Key, r: Result) {
    && r.source == Some(k.location) && r.outcome == Stale
    && r.detail.Some? && r.detail == Withdrawal(v, calls, k) && MostRecent(v, s', k)
  }

  /** Answer when there is no record of the prefix at the destination. */
  ghost predicate AnswersElsewhere(v: Env, calls: seq<Call>, s': State, prefix: Identity, r: Result) {
    var s := Exec(v, calls);
    && (r.outcome.Missing? <==> forall x :: x in s.records ==> x.key.prefix != prefix)
    && (forall l, m: nat ::
          (Holds(s, Key(prefix, l)) && Stands(v, calls, Key(prefix, l), m)
           && v.clock(s'.ticks) - v.clock(Exec(v, calls[..m]).ticks) < v.ttl)
          ==> r.outcome.Remote? || r.outcome.Partial?)
    && (r.outcome.Remote? || r.outcome.Partial? ==>
          && r.source.Some? && Holds(s, Key(prefix, r.source.value))
          && StoredFresh(v, calls, s', Key(prefix, r.source.value), r.tokens, r.bytes, r.outcome.Remote?))
    && (r.outcome.Remote? || r.outcome.Partial? || r.outcome.Stale? || r.outcome.Missing?)
  }

  /**
   * Every lookup is decided by the calls before it. A different namespace is incompatible and
   * nothing else is. A record held for the destination is reported with what the standing upsert
   * stored, as present, partial or expired by completeness and age; if nothing stands for it, as
   * stale with the reason of the withdrawal. An expired record leaves, any other becomes the most
   * recent. Without such a record the answer is missing exactly when no location has one, and a
   * standing young record elsewhere is always found.
   */
  lemma LookupIsDecided(v: Env, calls: seq<Call>, k: Key, namespace: string)
    requires Sound(v)
    ensures var s := Exec(v, calls);
            var (s', r) := Lookup(v, s, k, namespace);
            && (r.outcome.Incompatible? <==> namespace != k.prefix.namespace)
            && (r.outcome.Incompatible? ==> s' == s && r.tokens == r.bytes == 0 && r.source == None)
            && (namespace == k.prefix.namespace && Holds(s, k) ==>
                  && (forall m: nat :: Stands(v, calls, k, m) ==> AnswersStanding(v, calls, s', k, m, r))
                  && (!StandsSomewhere(v, calls, k) ==> AnswersWithdrawn(v, calls, s', k, r)))
            && (namespace == k.prefix.namespace && !Holds(s, k) ==> AnswersElsewhere(v, calls, s', k.prefix, r))
  {
    var s := Exec(v, calls);
    var i := IndexOf(s.records, k);
    if namespace == k.prefix.namespace {
      if i < |s.records| {
        assert s.records[i].key == k;
        LocalIsDecided(v, calls, k, namespace, i);
      } else {
        RemoteIsDecided(v, calls, k, namespace);
      }
    }
  }

  lemma SettledAt(v: Env, s: State, i: nat)
    requires Sound(v) && Inv(v, s) && i < |s.records|
    ensures var r, s' := s.records[i], Settle(v, s, i);
            if r.stale.None? && v.clock(s.ticks) - r.observedAt >= v.ttl then !Holds(s', r.key) else MostRecent(v, s', r.key)
  {
    if s.records[i].stale.None? {
      FreshOnlyByAge(v, s, i);
    }
    WithoutKeeps(s, i, v.clock(s.ticks));
  }

  lemma LocalIsDecided(v: Env, calls: seq<Call>, k: Key, namespace: string, i: nat)
    requires Sound(v) && namespace == k.prefix.namespace
    requires i < |Exec(v, calls).records| && i == IndexOf(Exec(v, calls).records, k)
    ensures var (s', r) := Lookup(v, Exec(v, calls), k, namespace);
            && !r.outcome.Incompatible?
            && (forall m: nat :: Stands(v, calls, k, m) ==> AnswersStanding(v, calls, s', k, m, r))
            && (!StandsSomewhere(v, calls, k) ==> AnswersWithdrawn(v, calls, s', k, r))
  {
    var s := Exec(v, calls);
    var x := s.records[i];
    ExecKeeps(v, calls);
    BeliefsStand(v, calls, k);
    MarksAreWithdrawals(v, calls);
    SettledAt(v, s, i);
    assert Believed(s, x);
    if x.stale.None? {
      FreshOnlyByAge(v, s, i);
    }
  }

  lemma RemoteIsDecided(v: Env, calls: seq<Call>, k: Key, namespace: string)
    requires Sound(v) && namespace == k.prefix.namespace && IndexOf(Exec(v, calls).records, k) == |Exec(v, calls).records|
    ensures var (s', r) := Lookup(v, Exec(v, calls), k, namespace); AnswersElsewhere(v, calls, s', k.prefix, r)
  {
    var s := Exec(v, calls);
    var n := |s.records|;
    ExecKeeps(v, calls);
    SeekIsExact(v, s, k.prefix, n, None);
    var (s', r) := Seek(v, s, k.prefix, n, None);
    LookupStands(v, calls, k, namespace);
    SeekMisses(v, s, k.prefix, n, None);
    if r.outcome.Remote? || r.outcome.Partial? {
      var j: nat :| Found(v, s, s', k.prefix, n, r, j);
      assert s.records[j].key == Key(k.prefix, r.source.value);
    }
    forall l, m: nat | Holds(s, Key(k.prefix, l)) && Stands(v, calls, Key(k.prefix, l), m)
                       && v.clock(s'.ticks) - v.clock(Exec(v, calls[..m]).ticks) < v.ttl
      ensures r.outcome.Remote? || r.outcome.Partial?
    {
      BeliefsStand(v, calls, Key(k.prefix, l));
      var j :| 0 <= j < n && s.records[j].key == Key(k.prefix, l);
      assert Believed(s, s.records[j]);
    }
  }

  /** With nothing seen yet, the search ends in missing only if it met no record of the prefix. */
  lemma {:induction false} SeekMisses(v: Env, s: State, prefix: Identity, i: nat, seen: Option<Record>)
    requires i <= |s.records|
    ensures Seek(v, s, prefix, i, seen).1.outcome.Missing? <==>
              seen.None? && forall m :: 0 <= m < i ==> s.records[m].key.prefix != prefix
    decreases i
  {
    if i == 0 {
    } else if s.records[i - 1].key.prefix != prefix {
      SeekMisses(v, s, prefix, i - 1, seen);
    } else if Judge(v, s, s.records[i - 1]).Stale? {
      SeekIsAfterStale(v, s, prefix, i, seen);
      SeekMisses(v, AfterStale(v, s, i), prefix, i - 1, Some(s.records[i - 1]));
    }
  }

  /**
   * Every confirmation is decided by the calls before it in the same way; nothing held is absent,
   * and a record that was taken back is reported without being touched.
   */
  lemma ConfirmIsDecided(v: Env, calls: seq<Call>, k: Key)
    requires Sound(v)
    ensures var s := Exec(v, calls);
            var (s', r) := Confirm(v, s, k);
            && (r.Absent? <==> !Holds(s, k))
            && (Holds(s, k) && !StandsSomewhere(v, calls, k) ==>
                  s' == s && r.Outdated? && Withdrawal(v, calls, k) == Some(r.detail))
            && forall m: nat :: Holds(s, k) && Stands(v, calls, k, m) ==>
                 if AgeOf(v, calls, m) >= v.ttl then r == Outdated("ttl_expired") && !Holds(s', k)
                 else
                   && r == (if calls[m].complete then Available(calls[m].reusable, calls[m].bytes)
                            else PartialOnly(calls[m].reusable, calls[m].bytes))
                   && MostRecent(v, s', k)
  {
    var s := Exec(v, calls);
    var i := IndexOf(s.records, k);
    ExecKeeps(v, calls);
    if i < |s.records| {
      var x := s.records[i];
      BeliefsStand(v, calls, k);
      MarksAreWithdrawals(v, calls);
      SettledAt(v, s, i);
      assert Believed(s, x);
      if x.stale.None? {
        FreshOnlyByAge(v, s, i);
      }
    }
  }

  /** A read takes nothing off but records that have expired, of the prefix it reads. */
  ghost predicate OnlyExpiredLeave(v: Env, s: State, s': State, prefix: Identity) {
    forall j :: 0 <= j < |s.records| && !Holds(s', s.records[j].key) ==>
      && s.records[j].key.prefix == prefix && s.records[j].stale.None?
      && v.clock(s'.ticks) - s.records[j].observedAt >= v.ttl
  }

  lemma DropLeaves(s: State, i: nat, t: State)
    requires i < |s.records| && t.records == Without(s.records, i)
    ensures forall j :: 0 <= j < |s.records| && j != i ==> s.records[j] in t.records && Holds(t, s.records[j].key)
  {
    forall j | 0 <= j < |s.records| && j != i
      ensures s.records[j] in t.records && Holds(t, s.records[j].key)
    {
      assert t.records[if j < i then j else j - 1] == s.records[j];
    }
  }

  lemma TouchHoldsAll(v: Env, s: State, i: nat)
    requires i < |s.records|
    ensures forall j :: 0 <= j < |s.records| ==> Holds(Touch(v, s, i), s.records[j].key)
  {
    var rs := Touch(v, s, i).records;
    forall j | 0 <= j < |s.records|
      ensures Holds(Touch(v, s, i), s.records[j].key)
    {
      assert rs[if j < i then j else if j > i then j - 1 else |s.records| - 1].key == s.records[j].key;
    }
  }

  lemma HoldsAllKeeps(v: Env, s: State, s': State, prefix: Identity)
    requires forall j :: 0 <= j < |s.records| ==> Holds(s', s.records[j].key)
    ensures OnlyExpiredLeave(v, s, s', prefix)
  {
  }

  lemma DropLeavesExpired(v: Env, s: State, i: nat, s': State)
    requires Sound(v) && Inv(v, s) && i < |s.records| && s.records[i].stale.None? && Judge(v, s, s.records[i]).Stale?
    requires s' == Drop(Judged(v, s, s.records[i]), i)
    ensures OnlyExpiredLeave(v, s, s', s.records[i].key.prefix)
  {
    DropLeaves(s, i, s');
    StaleByNow(v, s, i, s');
  }

  lemma SettleLeaves(v: Env, s: State, i: nat)
    requires Sound(v) && Inv(v, s) && i < |s.records|
    ensures OnlyExpiredLeave(v, s, Settle(v, s, i), s.records[i].key.prefix)
  {
    var t := Judged(v, s, s.records[i]);
    if s.records[i].stale.None? && Judge(v, s, s.records[i]).Stale? {
      DropLeavesExpired(v, s, i, Drop(t, i));
    } else {
      TouchHoldsAll(v, t, i);
      HoldsAllKeeps(v, s, Touch(v, t, i), s.records[i].key.prefix);
    }
  }

  lemma {:induction false} SeekLeaves(v: Env, s: State, prefix: Identity, i: nat, seen: Option<Record>, s': State)
    requires Sound(v) && Inv(v, s) && i <= |s.records| && s' == Seek(v, s, prefix, i, seen).0
    ensures OnlyExpiredLeave(v, s, s', prefix)
    decreases i
  {
    if i == 0 {
      NoneLeaves(v, s, prefix);
    } else if s.records[i - 1].key.prefix != prefix {
      SeekSkipsOther(v, s, prefix, i, seen);
      SeekLeaves(v, s, prefix, i - 1, seen, s');
    } else if Judge(v, s, s.records[i - 1]).Stale? {
      var next := AfterStale(v, s, i);
      StaleKeeps(v, s, i);
      SeekIsAfterStale(v, s, prefix, i, seen);
      SeekLeaves(v, next, prefix, i - 1, Some(s.records[i - 1]), s');
      SeekOnlyReads(v, next, prefix, i - 1, Some(s.records[i - 1]));
      LeavesThroughStale(v, s, i, next, s', prefix);
    } else {
      SeekTakesFresh(v, s, prefix, i, seen);
      FreshLeaves(v, s, i - 1, s');
    }
  }

  lemma NoneLeaves(v: Env, s: State, prefix: Identity)
    ensures OnlyExpiredLeave(v, s, s, prefix)
  {
  }

  lemma FreshLeaves(v: Env, s: State, i: nat, s': State)
    requires Sound(v) && Inv(v, s) && i < |s.records| && !Judge(v, s, s.records[i]).Stale?
    requires s' == Touch(v, Judged(v, s, s.records[i]), i)
    ensures OnlyExpiredLeave(v, s, s', s.records[i].key.prefix)
  {
    SettleLeaves(v, s, i);
    assert s' == Settle(v, s, i);
  }

  lemma LeavesThroughStale(v: Env, s: State, i: nat, next: State, s': State, prefix: Identity)
    requires Sound(v) && Inv(v, s) && 0 < i <= |s.records| && next == AfterStale(v, s, i)
    requires s.records[i - 1].key.prefix == prefix && Judge(v, s, s.records[i - 1]).Stale?
    requires next.ticks <= s'.ticks && OnlyExpiredLeave(v, next, s', prefix)
    ensures OnlyExpiredLeave(v, s, s', prefix)
  {
    if s.records[i - 1].stale.None? {
      StaleByNow(v, s, i - 1, s');
      DropLeaves(s, i - 1, next);
    }
    forall j | 0 <= j < |s.records| && !Holds(s', s.records[j].key)
      ensures s.records[j].key.prefix == prefix && s.records[j].stale.None?
      ensures v.clock(s'.ticks) - s.records[j].observedAt >= v.ttl
    {
      if s.records[j] in next.records {
        var m :| 0 <= m < |next.records| && next.records[m] == s.records[j];
      }
    }
  }

  /** Lookups and confirmations drop nothing but expired records of the prefix they read. */
  lemma ReadsDropOnlyExpired(v: Env, calls: seq<Call>, c: Call)
    requires Sound(v) && (c.CallLookup? || c.CallConfirm?)
    ensures var s := Exec(v, calls); OnlyExpiredLeave(v, s, Step(v, s, c), c.key.prefix)
  {
    var s := Exec(v, calls);
    var i := IndexOf(s.records, c.key);
    ExecKeeps(v, calls);
    if Step(v, s, c) == s {
    } else if i < |s.records| {
      SettleLeaves(v, s, i);
    } else {
      SeekLeaves(v, s, c.key.prefix, |s.records|, None, Step(v, s, c));
    }
  }

  /**
   * Least recently used: storing a key keeps that key, and of the others it evicts at most one,
   * the first in order, whose last access is no later than that of any record kept.
   */
  lemma EvictsLeastRecent(v: Env, calls: seq<Call>, k: Key, g: string, n: int, b: int, full: bool)
    requires Sound(v) && !UpsertRefused(v, Exec(v, calls), k, g, n, b)
    ensures var s := Exec(v, calls);
            var s' := Upsert(v, s, k, g, n, b, full);
            var r := NewRecord(v, s, k, g, n, b, full);
            var others := if IndexOf(s.records, k) < |s.records| then Without(s.records, IndexOf(s.records, k)) else s.records;
            if |others| < v.capacity then s'.records == others + [r]
            else
              && others != [] && s'.records == others[1..] + [r]
              && forall x :: x in s'.records ==> others[0].lastAccessed <= x.lastAccessed
  {
    ExecKeeps(v, calls);
    var s := Exec(v, calls);
    var r := NewRecord(v, s, k, g, n, b, full);
    var t := Stored(v, s, r);
    var others := t.records[..|t.records| - 1];
    StoredKeeps(v, s, r);
    if |others| >= v.capacity {
      EvictsOne(v, t);
      assert t.records[1..] == others[1..] + [r];
    }
  }

  lemma EvictsOne(v: Env, t: State)
    requires v.capacity >= 0 && |t.records| == v.capacity + 1
    ensures Evict(v, t) == t.(records := t.records[1..], capacityEvictions := t.capacityEvictions + 1)
  {
    var e := t.(records := t.records[1..], capacityEvictions := t.capacityEvictions + 1);
    assert Evict(v, t) == Evict(v, e) == e;
  }

  // ---- The in-place form ----

  class MetadataDirectory {
    const env: Env
    var records: seq<Record>
    var generations: map<string, string>
    var capacityEvictions: nat
    var ttlEvictions: nat
    var ticks: nat
    ghost var inserted: nat
    ghost var invalidated: nat
    ghost var beliefs: map<Key, Belief>

    ghost function View(): State
      reads this
    {
      State(records, generations, capacityEvictions, ttlEvictions, ticks, inserted, invalidated, beliefs)
    }

    constructor (env: Env)
      ensures this.env == env && View() == Empty
    {
      this.env := env;
      records, generations, capacityEvictions, ttlEvictions, ticks := [], map[], 0, 0, 0;
      inserted, invalidated, beliefs := 0, 0, map[];
    }

    method MarkStale(hit: Record -> bool, reason: string) returns (count: nat)
      modifies this`records
      ensures records == Mark(old(records), hit, reason)
      ensures count == Marked(old(records), hit)
    {
      var snapshot := records;
      ghost var f := (r: Record) => hit(r) && r.stale.None?;
      count := 0;
      for i := 0 to |snapshot|
        invariant |records| == |snapshot|
        invariant forall j :: 0 <= j < i ==> records[j] == Mark(snapshot, hit, reason)[j]
        invariant forall j :: i <= j < |snapshot| ==> records[j] == snapshot[j]
        invariant count == Count(snapshot[..i], f)
      {
        assert snapshot[..i + 1][..i] == snapshot[..i];
        if hit(snapshot[i]) && snapshot[i].stale.None? {
          records := records[i := snapshot[i].(stale := Some(reason))];
          count := count + 1;
        }
      }
      assert snapshot[..|snapshot|] == snapshot;
    }

    method ObserveWorker(location: string, generation: string) returns (r: Reply<nat>)
      modifies this
      ensures View() == Observe(env, old(View()), location, generation)
      ensures r == if env.blank(location) || env.blank(generation) then Error
                   else Ok(if Renews(old(View()), location, generation) then Marked(old(records), AtLocation(location)) else 0)
    {
      if env.blank(location) || env.blank(generation) {
        return Error;
      }
      var changed := location in generations && generations[location] != generation;
      generations := generations[location := generation];
      if !changed {
        return Ok(0);
      }
      var n := MarkStale(AtLocation(location), "worker_generation_changed");
      beliefs := map k | k in beliefs && k.location != location :: beliefs[k];
      return Ok(n);
    }

    method Put(r: Record)
      modifies this`records, this`ticks, this`inserted, this`beliefs
      ensures View() == Stored(env, old(View()), r)
    {
      var i := IndexOf(records, r.key);
      if i == |records| {
        inserted := inserted + 1;
        records := records + [r];
      } else {
        records := Without(records, i) + [r];
      }
      ticks := ticks + 1;
      beliefs := beliefs[r.key := Belief(r.reusable, r.bytes, r.complete, r.observedAt)];
    }

    method UpsertRecord(k: Key, generation: string, reusable: int, bytes: int, complete: bool) returns (r: Reply<Record>)
      requires env.capacity > 0
      modifies this
      ensures View() == Upsert(env, old(View()), k, generation, reusable, bytes, complete)
      ensures r == if UpsertRefused(env, old(View()), k, generation, reusable, bytes) then Error
                   else Ok(NewRecord(env, old(View()), k, generation, reusable, bytes, complete))
    {
      if UpsertRefused(env, State(records, generations, capacityEvictions, ttlEvictions, ticks, 0, 0, map[]),
                       k, generation, reusable, bytes) {
        return Error;
      }
      var now := env.clock(ticks);
      var record := Record(k, generation, reusable, bytes, complete, now, now, None);
      Put(record);
      ghost var goal := Evict(env, View());
      while |records| > env.capacity
        invariant Evict(env, View()) == goal
        decreases |records|
      {
        records := records[1..];
        capacityEvictions := capacityEvictions + 1;
      }
      return Ok(record);
    }

    /** `_record_outcome`. */
    method RecordOutcome(r: Record) returns (o: Outcome)
      modifies this`ticks, this`ttlEvictions
      ensures o == Judge(env, old(View()), r) && View() == Judged(env, old(View()), r)
    {
      if r.stale.Some? {
        return Stale;
      }
      var now := env.clock(ticks);
      ticks := ticks + 1;
      if now - r.observedAt >= env.ttl {
        ttlEvictions := ttlEvictions + 1;
        return Stale;
      }
      if !(r.key.location in generations && generations[r.key.location] == r.generation) {
        return Stale;
      }
      return if r.complete then Present else Partial;
    }

    method TouchAt(i: nat)
      requires i < |records|
      modifies this`records, this`ticks
      ensures View() == Touch(env, old(View()), i)
    {
      records := Without(records, i) + [records[i].(lastAccessed := env.clock(ticks))];
      ticks := ticks + 1;
    }

    method LookupPrefix(k: Key, namespace: string) returns (r: Result)
      modifies this
      ensures (View(), r) == Lookup(env, old(View()), k, namespace)
    {
      if namespace != k.prefix.namespace {
        return Result(Incompatible, None, 0, 0, Some("compatibility_namespace_mismatch"));
      }
      var i := IndexOf(records, k);
      if i < |records| {
        var local := records[i];
        var o := RecordOutcome(local);
        if o.Stale? && local.stale.None? {
          records := Without(records, i);
        } else {
          TouchAt(i);
        }
        return Report(local, o);
      }
      r := LookupRemote(k.prefix);
    }

    /** The search through the other locations, most recently used first. */
    method LookupRemote(prefix: Identity) returns (r: Result)
      modifies this
      ensures (View(), r) == Seek(env, old(View()), prefix, |old(records)|, None)
    {
      var snapshot := records;
      var seen: Option<Record> := None;
      ghost var goal := Seek(env, View(), prefix, |records|, None);
      var i: nat := |snapshot|;
      while i > 0
        invariant i <= |snapshot| && i <= |records|
        invariant forall j :: 0 <= j < i ==> records[j] == snapshot[j]
        invariant Seek(env, View(), prefix, i, seen) == goal
      {
        i := i - 1;
        var record := snapshot[i];
        if record.key.prefix == prefix {
          var o := RecordOutcome(record);
          if o.Stale? {
            seen := Some(record);
            if record.stale.None? {
              records := Without(records, i);
            }
          } else {
            TouchAt(i);
            return Report(record, if o.Present? then Remote else o);
          }
        }
      }
      return if seen.Some? then Report(seen.value, Stale) else Result(Missing, None, 0, 0, None);
    }

    method ConfirmPrefix(k: Key) returns (r: Confirmation)
      modifies this
      ensures (View(), r) == Confirm(env, old(View()), k)
    {
      var i := IndexOf(records, k);
      if i == |records| {
        return Absent;
      }
      var record := records[i];
      var o := RecordOutcome(record);
      if o.Stale? {
        if record.stale.None? {
          records := Without(records, i);
        }
        return Outdated(if record.stale.Some? then record.stale.value else "ttl_expired");
      }
      TouchAt(i);
      return if o.Partial? then PartialOnly(record.reusable, record.bytes) else Available(record.reusable, record.bytes);
    }

    method InvalidatePrefix(k: Key, reason: string) returns (r: Reply<bool>)
      modifies this
      ensures View() == Invalidate(env, old(View()), k, reason)
      ensures r == if env.blank(reason) then Error else Ok(IndexOf(old(records), k) < |old(records)|)
    {
      if env.blank(reason) {
        return Error;
      }
      var i := IndexOf(records, k);
      beliefs := beliefs - {k};
      if i < |records| {
        records := Without(records, i);
        invalidated := invalidated + 1;
        return Ok(true);
      }
      return Ok(false);
    }

    method InvalidateCompatibility(namespace: string, reason: string) returns (r: Reply<nat>)
      modifies this
      ensures View() == InvalidateNamespace(env, old(View()), namespace, reason)
      ensures r == if env.blank(namespace) || env.blank(reason) then Error
                   else Ok(Marked(old(records), InNamespace(namespace)))
    {
      if env.blank(namespace) || env.blank(reason) {
        return Error;
      }
      var n := MarkStale(InNamespace(namespace), reason);
      beliefs := map k | k in beliefs && k.prefix.namespace != namespace :: beliefs[k];
      return Ok(n);
    }
  }
}
