/**
 * The SQL that services/dataset_spike/dataset_spike/query_compiler.py emits: expressions with
 * positional `?` holes under three-valued logic, and the relational operators around them.
 *
 * Scalar functions of the engine, the aggregates and the order of cells are parameters (`Engine`).
 */
module Sql {
  import opened Basics

  /** A cell. `Bucket` is the label of a half-open interval, e.g. '[1,2)', '<1' or '6+'. */
  datatype Value =
    | Null
    | Bool(b: bool)
    | Num(n: real)
    | Text(s: string)
    | Time(at: int)
    | Bucket(lo: Option<int>, hi: Option<int>)

  datatype Trip = Trip(
    pickup: Option<int>,
    dropoff: Option<int>,
    pickupLocation: Option<int>,
    dropoffLocation: Option<int>,
    fare: Option<real>,
    total: Option<real>,
    tip: Option<real>,
    distance: Option<real>,
    passengers: Option<int>,
    payment: Option<int>,
    rate: Option<int>,
    vendor: Option<int>)

  datatype Zone = Zone(location: Option<int>, name: Option<string>, borough: Option<string>)

  datatype Database = Database(trips: seq<Trip>, zones: seq<Zone>)

  /** One row of the FROM clause: a trip and the zone rows joined to it. */
  datatype Scope = Scope(t: Trip, pz: Option<Zone>, dz: Option<Zone>)

  datatype Measure =
    | TripCount | TripShare | AverageFare | MedianFare | AverageTip | MedianTip | TotalTips | TipRate
    | AverageTotal | AverageDistance | MedianDistance | AverageDuration | MedianDuration | P95Duration
    | AveragePassengers

  datatype Direction = Asc | Desc

  datatype Engine = Engine(
    lower: string -> string,
    hour: int -> int,
    dayName: int -> string,
    isoDow: int -> int,
    dateText: int -> string,
    minutes: (int, int) -> int,
    parse: string -> int,
    asText: Value -> string,
    like: (string, string) -> bool,
    share: (nat, nat) -> Value,
    aggregate: (Measure, multiset<Trip>) -> Value,
    plus: (Value, Value) -> Value,
    before: (Direction, Value, Value) -> bool)

  datatype Column =
    | Pickup | Dropoff | Fare | Total | Distance | Passengers | Payment | Rate | Vendor
    | PickupZone | PickupBorough | DropoffZone | DropoffBorough

  /** One-place operators: scalar functions, casts, IN (...), IS NULL, NOT and coalesce with a constant. */
  datatype Unary =
    | Lower | Hour | DayName | IsoDow | DateText | AsInt | AsText
    | In(vs: seq<Value>) | IsNull | Not | OrElse(v: Value)

  datatype Op = Lt | Le | Ge | Eq

  datatype Binary = Minutes | Cmp(op: Op) | Like | And | Or

  datatype Expr =
    | Hole
    | Lit(v: Value)
    | Col(c: Column)
    | Un(f: Unary, e: Expr)
    | Bin(g: Binary, l: Expr, r: Expr)
    | If(test: Expr, l: Expr, r: Expr)

  // ---- Expressions ----

  function Whole(x: Option<int>): Value {
    if x.Some? then Num(x.value as real) else Null
  }

  function Real(x: Option<real>): Value {
    if x.Some? then Num(x.value) else Null
  }

  function Stamp(x: Option<int>): Value {
    if x.Some? then Time(x.value) else Null
  }

  function Name(x: Option<string>): Value {
    if x.Some? then Text(x.value) else Null
  }

  /** The zone name or borough a LEFT JOIN supplies. */
  function ZoneName(z: Option<Zone>): Option<string> {
    if z.Some? then z.value.name else None
  }

  function ZoneBorough(z: Option<Zone>): Option<string> {
    if z.Some? then z.value.borough else None
  }

  function Fetch(s: Scope, c: Column): Value {
    match c
    case Pickup => Stamp(s.t.pickup)
    case Dropoff => Stamp(s.t.dropoff)
    case Fare => Real(s.t.fare)
    case Total => Real(s.t.total)
    case Distance => Real(s.t.distance)
    case Passengers => Whole(s.t.passengers)
    case Payment => Whole(s.t.payment)
    case Rate => Whole(s.t.rate)
    case Vendor => Whole(s.t.vendor)
    case PickupZone => Name(ZoneName(s.pz))
    case PickupBorough => Name(ZoneBorough(s.pz))
    case DropoffZone => Name(ZoneName(s.dz))
    case DropoffBorough => Name(ZoneBorough(s.dz))
  }

  function Apply(E: Engine, f: Unary, v: Value): Value {
    match f
    case IsNull => Bool(v.Null?)
    case OrElse(d) => if v.Null? then d else v
    case Not => if v.Bool? then Bool(!v.b) else Null
    case In(vs) => if v.Null? then Null else Bool(v in vs)
    case Lower => if v.Text? then Text(E.lower(v.s)) else Null
    case Hour => if v.Time? then Num(E.hour(v.at) as real) else Null
    case DayName => if v.Time? then Text(E.dayName(v.at)) else Null
    case IsoDow => if v.Time? then Num(E.isoDow(v.at) as real) else Null
    case DateText => if v.Time? then Text(E.dateText(v.at)) else Null
    case AsInt => v
    case AsText => if v.Null? then Null else Text(E.asText(v))
  }

  predicate Rel(op: Op, x: real, y: real) {
    match op
    case Lt => x < y
    case Le => x <= y
    case Ge => x >= y
    case Eq => x == y
  }

  /** A comparison with NULL is NULL; a text compared with a timestamp is read as one. */
  function Compare(E: Engine, op: Op, a: Value, b: Value): Value {
    if a.Null? || b.Null? then Null
    else if a.Num? && b.Num? then Bool(Rel(op, a.n, b.n))
    else if a.Time? && b.Time? then Bool(Rel(op, a.at as real, b.at as real))
    else if a.Time? && b.Text? then Bool(Rel(op, a.at as real, E.parse(b.s) as real))
    else if op == Eq then Bool(a == b)
    else Null
  }

  predicate IsTrue(v: Value) {
    v == Bool(true)
  }

  function And3(a: Value, b: Value): Value {
    if a == Bool(false) || b == Bool(false) then Bool(false)
    else if IsTrue(a) && IsTrue(b) then Bool(true) else Null
  }

  function Or3(a: Value, b: Value): Value {
    if IsTrue(a) || IsTrue(b) then Bool(true)
    else if a == Bool(false) && b == Bool(false) then Bool(false) else Null
  }

  function Combine(E: Engine, g: Binary, a: Value, b: Value): Value {
    match g
    case Minutes => if a.Time? && b.Time? then Num(E.minutes(a.at, b.at) as real) else Null
    case Cmp(op) => Compare(E, op, a, b)
    case Like => if a.Text? && b.Text? then Bool(E.like(a.s, b.s)) else Null
    case And => And3(a, b)
    case Or => Or3(a, b)
  }

  /** Placeholders in an expression. */
  function Holes(e: Expr): nat {
    match e
    case Hole => 1
    case Lit(_) => 0
    case Col(_) => 0
    case Un(_, a) => Holes(a)
    case Bin(_, l, r) => Holes(l) + Holes(r)
    case If(c, l, r) => Holes(c) + Holes(l) + Holes(r)
  }

  /** The expression mentions a zone alias. */
  predicate UsesZones(e: Expr) {
    match e
    case Hole => false
    case Lit(_) => false
    case Col(c) => c.PickupZone? || c.PickupBorough? || c.DropoffZone? || c.DropoffBorough?
    case Un(_, a) => UsesZones(a)
    case Bin(_, l, r) => UsesZones(l) || UsesZones(r)
    case If(c, l, r) => UsesZones(c) || UsesZones(l) || UsesZones(r)
  }

  /** The value of `e` on a row, its placeholders bound to `ps` from left to right. */
  function Eval(E: Engine, s: Scope, e: Expr, ps: seq<Value>): Value
    requires |ps| == Holes(e)
  {
    match e
    case Hole => ps[0]
    case Lit(v) => v
    case Col(c) => Fetch(s, c)
    case Un(f, a) => Apply(E, f, Eval(E, s, a, ps))
    case Bin(g, l, r) => Combine(E, g, Eval(E, s, l, ps[..Holes(l)]), Eval(E, s, r, ps[Holes(l)..]))
    case If(c, l, r) =>
      if IsTrue(Eval(E, s, c, ps[..Holes(c)])) then Eval(E, s, l, ps[Holes(c)..Holes(c) + Holes(l)])
      else Eval(E, s, r, ps[Holes(c) + Holes(l)..])
  }

  /** An expression without zone aliases does not see the joined zones. */
  lemma {:induction false} ZoneFreeEval(E: Engine, s: Scope, s': Scope, e: Expr, ps: seq<Value>)
    requires s.t == s'.t && !UsesZones(e) && |ps| == Holes(e)
    ensures Eval(E, s, e, ps) == Eval(E, s', e, ps)
    decreases e
  {
    match e
    case Hole =>
    case Lit(_) =>
    case Col(_) =>
    case Un(_, a) => ZoneFreeEval(E, s, s', a, ps);
    case Bin(_, l, r) =>
      ZoneFreeEval(E, s, s', l, ps[..Holes(l)]);
      ZoneFreeEval(E, s, s', r, ps[Holes(l)..]);
    case If(c, l, r) =>
      ZoneFreeEval(E, s, s', c, ps[..Holes(c)]);
      ZoneFreeEval(E, s, s', l, ps[Holes(c)..Holes(c) + Holes(l)]);
      ZoneFreeEval(E, s, s', r, ps[Holes(c) + Holes(l)..]);
  }

  /** The clauses joined by AND; none at all is no WHERE. */
  function Conj(cs: seq<Expr>): Expr {
    if cs == [] then Lit(Bool(true)) else Bin(And, Conj(cs[..|cs| - 1]), cs[|cs| - 1])
  }

  /** The row passes the clauses. */
  predicate Kept(E: Engine, s: Scope, cs: seq<Expr>, ps: seq<Value>) {
    Holes(Conj(cs)) == |ps| && IsTrue(Eval(E, s, Conj(cs), ps))
  }

  /** Appending a clause together with its own parameters narrows the condition by exactly that clause. */
  lemma AppendNarrows(cs: seq<Expr>, ps: seq<Value>, c: Expr, args: seq<Value>)
    requires Holes(Conj(cs)) == |ps| && Holes(c) == |args|
    ensures Holes(Conj(cs + [c])) == |ps + args|
    ensures UsesZones(Conj(cs + [c])) == (UsesZones(Conj(cs)) || UsesZones(c))
    ensures forall E, s :: Kept(E, s, cs + [c], ps + args) <==> Kept(E, s, cs, ps) && IsTrue(Eval(E, s, c, args))
  {
    assert (cs + [c])[..|cs + [c]| - 1] == cs;
    assert Conj(cs + [c]) == Bin(And, Conj(cs), c);
    assert (ps + args)[..|ps|] == ps && (ps + args)[|ps|..] == args;
  }

  // ---- FROM: the zone joins ----

  function Matching(zones: seq<Zone>, location: Option<int>): (r: seq<Zone>) {
    if location.None? then [] else Filter(zones, (z: Zone) => z.location == location)
  }

  /** A LEFT JOIN's partners: every match, or a single row of NULLs. */
  function Partners(zones: seq<Zone>, location: Option<int>): (r: seq<Option<Zone>>)
    ensures |r| == Max(1, |Matching(zones, location)|)
  {
    var ms := Matching(zones, location);
    if ms == [] then [None] else seq(|ms|, i requires 0 <= i < |ms| => Some(ms[i]))
  }

  function WithDropoffs(t: Trip, p: Option<Zone>, ds: seq<Option<Zone>>): (r: seq<Scope>)
    ensures |r| == |ds| && forall i :: 0 <= i < |r| ==> r[i] == Scope(t, p, ds[i])
  {
    seq(|ds|, i requires 0 <= i < |ds| => Scope(t, p, ds[i]))
  }

  function WithZones(t: Trip, ps: seq<Option<Zone>>, ds: seq<Option<Zone>>): (r: seq<Scope>)
    ensures |r| == |ps| * |ds| && forall i :: 0 <= i < |r| ==> r[i].t == t
  {
    if ps == [] then [] else WithDropoffs(t, ps[0], ds) + WithZones(t, ps[1..], ds)
  }

  function Joined(t: Trip, zones: seq<Zone>): (r: seq<Scope>)
    ensures forall i :: 0 <= i < |r| ==> r[i].t == t
  {
    WithZones(t, Partners(zones, t.pickupLocation), Partners(zones, t.dropoffLocation))
  }

  /** FROM trips, with or without the two zone LEFT JOINs. */
  function From(join: bool, trips: seq<Trip>, zones: seq<Zone>): seq<Scope> {
    if trips == [] then []
    else RowsFor(join, trips[0], zones) + From(join, trips[1..], zones)
  }

  function TripsOf(rows: seq<Scope>): (r: seq<Trip>)
    ensures |r| == |rows| && forall i :: 0 <= i < |rows| ==> r[i] == rows[i].t
  {
    seq(|rows|, i requires 0 <= i < |rows| => rows[i].t)
  }

  /** Each end of the trip matches at most one zone row. */
  predicate MatchesOnce(t: Trip, zones: seq<Zone>) {
    |Matching(zones, t.pickupLocation)| <= 1 && |Matching(zones, t.dropoffLocation)| <= 1
  }

  predicate UniqueLocations(zones: seq<Zone>) {
    forall i, j :: 0 <= i < j < |zones| && zones[i].location.Some? ==> zones[i].location != zones[j].location
  }

  /** A location that occurs at the head occurs nowhere else. */
  lemma HeadIsUnique(zones: seq<Zone>)
    requires UniqueLocations(zones) && zones != [] && zones[0].location.Some?
    ensures forall z :: z in zones[1..] ==> z.location != zones[0].location
  {
    forall z | z in zones[1..]
      ensures z.location != zones[0].location
    {
      var i :| 0 <= i < |zones[1..]| && zones[1..][i] == z;
      assert zones[i + 1] == z;
    }
  }

  lemma {:induction false} UniqueMatchesOnce(zones: seq<Zone>, location: Option<int>)
    requires UniqueLocations(zones)
    ensures |Matching(zones, location)| <= 1
  {
    if location.None? || zones == [] {
    } else {
      var rest, f := zones[1..], (z: Zone) => z.location == location;
      UniqueMatchesOnce(rest, location);
      assert Filter(zones, f) == (if f(zones[0]) then [zones[0]] else []) + Filter(rest, f);
      if f(zones[0]) {
        HeadIsUnique(zones);
        FilterNone(rest, f);
      }
    }
  }

  lemma ProductIsOne(a: nat, b: nat)
    requires a >= 1 && b >= 1
    ensures a * b >= a && a * b >= b && (a * b == 1 <==> a == 1 && b == 1)
  {
    assert a * (b - 1) >= 0 && (a - 1) * b >= 0;
    assert a * b == a + a * (b - 1);
    assert a * b == b + (a - 1) * b;
  }

  lemma JoinedOnce(t: Trip, zones: seq<Zone>)
    ensures |Joined(t, zones)| >= 1 && (|Joined(t, zones)| == 1 <==> MatchesOnce(t, zones))
  {
    ProductIsOne(|Partners(zones, t.pickupLocation)|, |Partners(zones, t.dropoffLocation)|);
  }

  lemma TripsOfConcat(a: seq<Scope>, b: seq<Scope>)
    ensures TripsOf(a + b) == TripsOf(a) + TripsOf(b)
  {
  }

  /** The FROM rows of the first trip. */
  function RowsFor(join: bool, t: Trip, zones: seq<Zone>): seq<Scope> {
    if join then Joined(t, zones) else [Scope(t, None, None)]
  }

  lemma FromSplits(join: bool, trips: seq<Trip>, zones: seq<Zone>)
    requires trips != []
    ensures TripsOf(From(join, trips, zones)) == TripsOf(RowsFor(join, trips[0], zones)) + TripsOf(From(join, trips[1..], zones))
    ensures |From(join, trips, zones)| == |RowsFor(join, trips[0], zones)| + |From(join, trips[1..], zones)|
  {
    TripsOfConcat(RowsFor(join, trips[0], zones), From(join, trips[1..], zones));
  }

  lemma {:induction false} BareTrips(trips: seq<Trip>, zones: seq<Zone>)
    ensures TripsOf(From(false, trips, zones)) == trips
  {
    if trips == [] {
    } else {
      BareTrips(trips[1..], zones);
      FromSplits(false, trips, zones);
      assert TripsOf(RowsFor(false, trips[0], zones)) == [trips[0]];
      assert trips == [trips[0]] + trips[1..];
    }
  }

  lemma {:induction false} JoinNeverLosesRows(trips: seq<Trip>, zones: seq<Zone>)
    ensures |From(true, trips, zones)| >= |trips|
    ensures |From(true, trips, zones)| == |trips| <==> forall i :: 0 <= i < |trips| ==> MatchesOnce(trips[i], zones)
  {
    if trips == [] {
    } else {
      var rest := trips[1..];
      JoinNeverLosesRows(rest, zones);
      JoinedOnce(trips[0], zones);
      FromSplits(true, trips, zones);
      assert forall i :: 0 <= i < |rest| ==> rest[i] == trips[i + 1];
      assert forall i :: 1 <= i < |trips| ==> trips[i] == rest[i - 1];
    }
  }

  lemma {:induction false} JoinKeepsTrips(trips: seq<Trip>, zones: seq<Zone>)
    requires forall t :: t in trips ==> MatchesOnce(t, zones)
    ensures TripsOf(From(true, trips, zones)) == trips
  {
    if trips == [] {
    } else {
      JoinKeepsTrips(trips[1..], zones);
      JoinedOnce(trips[0], zones);
      FromSplits(true, trips, zones);
      assert TripsOf(RowsFor(true, trips[0], zones)) == [trips[0]];
      assert trips == [trips[0]] + trips[1..];
    }
  }

  /** The zone joins leave the trips as they are if and only if every trip matches at most one zone at each end. */
  lemma JoinIsNeutralIff(trips: seq<Trip>, zones: seq<Zone>)
    ensures TripsOf(From(true, trips, zones)) == trips <==> forall t :: t in trips ==> MatchesOnce(t, zones)
  {
    JoinNeverLosesRows(trips, zones);
    if forall t :: t in trips ==> MatchesOnce(t, zones) {
      JoinKeepsTrips(trips, zones);
    } else {
      assert |TripsOf(From(true, trips, zones))| != |trips|;
    }
  }

  /** A test that sees only the trip may be made before the joins. */
  lemma {:induction false} FilterBeforeJoin(join: bool, trips: seq<Trip>, zones: seq<Zone>, f: Scope -> bool, g: Trip -> bool)
    requires forall s: Scope :: f(s) == g(s.t)
    ensures Filter(From(join, trips, zones), f) == From(join, Filter(trips, g), zones)
  {
    if trips == [] {
    } else {
      var t, rest := trips[0], trips[1..];
      FilterBeforeJoin(join, rest, zones, f, g);
      FilterConcat(RowsFor(join, t, zones), From(join, rest, zones), f);
      if g(t) {
        FilterAll(RowsFor(join, t, zones), f);
        FromCons(join, t, Filter(rest, g), zones);
      } else {
        FilterNone(RowsFor(join, t, zones), f);
        DropEmpty(Filter(From(join, rest, zones), f), Filter(rest, g));
      }
    }
  }

  lemma FromCons(join: bool, t: Trip, rest: seq<Trip>, zones: seq<Zone>)
    ensures From(join, [t] + rest, zones) == RowsFor(join, t, zones) + From(join, rest, zones)
  {
    assert ([t] + rest)[1..] == rest;
  }

  lemma DropEmpty(a: seq<Scope>, b: seq<Trip>)
    ensures [] + a == a && [] + b == b
  {
  }

  /** Rows that agree trip by trip pass a test that sees only the trip in the same places. */
  lemma {:induction false} FilterAligned(a: seq<Scope>, b: seq<Scope>, f: Scope -> bool)
    requires TripsOf(a) == TripsOf(b)
    requires forall s: Scope, s': Scope :: s.t == s'.t ==> f(s) == f(s')
    ensures TripsOf(Filter(a, f)) == TripsOf(Filter(b, f))
  {
    assert |a| == |TripsOf(a)| == |TripsOf(b)| == |b|;
    if a == [] {
    } else {
      assert a[0].t == TripsOf(a)[0] == TripsOf(b)[0] == b[0].t;
      assert TripsOf(a[1..]) == TripsOf(a)[1..] == TripsOf(b)[1..] == TripsOf(b[1..]);
      FilterAligned(a[1..], b[1..], f);
      assert f(a[0]) == f(b[0]);
      FilterSplits(a, f);
      FilterSplits(b, f);
    }
  }

  lemma FilterSplits(a: seq<Scope>, f: Scope -> bool)
    requires a != []
    ensures TripsOf(Filter(a, f)) == (if f(a[0]) then [a[0].t] else []) + TripsOf(Filter(a[1..], f))
  {
    var head := if f(a[0]) then [a[0]] else [];
    TripsOfConcat(head, Filter(a[1..], f));
    assert TripsOf(head) == if f(a[0]) then [a[0].t] else [];
  }

  // ---- SELECT ... GROUP BY ----

  /** SELECT dims, measures FROM trips [zone joins] WHERE clauses GROUP BY dims. */
  datatype Select = Select(dims: seq<Expr>, measures: seq<Measure>, join: bool, clauses: seq<Expr>)

  /** One output row: the group's key and its measures. */
  datatype Row = Row(key: seq<Value>, cells: seq<Value>)

  function Measured(E: Engine, m: Measure, trips: seq<Trip>, total: nat): Value {
    match m
    case TripCount => Num(|trips| as real)
    case TripShare => E.share(|trips|, total)
    case _ => E.aggregate(m, multiset(trips))
  }

  predicate NoHoles(dims: seq<Expr>) {
    forall i :: 0 <= i < |dims| ==> Holes(dims[i]) == 0
  }

  function KeyOf(E: Engine, dims: seq<Expr>, s: Scope): (key: seq<Value>)
    requires NoHoles(dims)
    ensures |key| == |dims| && forall i :: 0 <= i < |dims| ==> key[i] == Eval(E, s, dims[i], [])
  {
    seq(|dims|, i requires 0 <= i < |dims| => Eval(E, s, dims[i], []))
  }

  function InGroup(E: Engine, dims: seq<Expr>, key: seq<Value>): Scope -> bool
    requires NoHoles(dims)
  {
    (s: Scope) => KeyOf(E, dims, s) == key
  }

  function GroupOf(E: Engine, rows: seq<Scope>, dims: seq<Expr>, key: seq<Value>): seq<Trip>
    requires NoHoles(dims)
  {
    TripsOf(Filter(rows, InGroup(E, dims, key)))
  }

  function RowFor(E: Engine, rows: seq<Scope>, dims: seq<Expr>, measures: seq<Measure>, key: seq<Value>): (r: Row)
    requires NoHoles(dims)
  {
    var trips := GroupOf(E, rows, dims, key);
    Row(key, seq(|measures|, i requires 0 <= i < |measures| => Measured(E, measures[i], trips, |rows|)))
  }

  predicate HasKey(E: Engine, rows: seq<Scope>, dims: seq<Expr>, key: seq<Value>)
    requires NoHoles(dims)
  {
    exists i :: 0 <= i < |rows| && KeyOf(E, dims, rows[i]) == key
  }

  predicate Appears(out: seq<Row>, key: seq<Value>) {
    exists i :: 0 <= i < |out| && out[i].key == key
  }

  /** `out` lists every group once, in some order; without dimensions there is a single group, even of nothing. */
  ghost predicate IsGrouping(E: Engine, rows: seq<Scope>, dims: seq<Expr>, measures: seq<Measure>, out: seq<Row>)
    requires NoHoles(dims)
  {
    && (forall key :: Appears(out, key) <==> HasKey(E, rows, dims, key) || (dims == [] && key == []))
    && (forall i :: 0 <= i < |out| ==> out[i] == RowFor(E, rows, dims, measures, out[i].key))
    && (forall i, j :: 0 <= i < j < |out| ==> out[i].key != out[j].key)
  }

  lemma GroupingsAgree(E: Engine, rows: seq<Scope>, dims: seq<Expr>, measures: seq<Measure>, a: seq<Row>, b: seq<Row>)
    requires NoHoles(dims) && IsGrouping(E, rows, dims, measures, a) && IsGrouping(E, rows, dims, measures, b)
    ensures forall x :: x in a ==> x in b
  {
    forall x | x in a
      ensures x in b
    {
      assert Appears(a, x.key);
      assert Appears(b, x.key);
    }
  }

  /** Rows that agree trip by trip give the same groups when no dimension mentions a zone. */
  lemma ZoneFreeGroups(E: Engine, a: seq<Scope>, b: seq<Scope>, dims: seq<Expr>, measures: seq<Measure>, key: seq<Value>)
    requires NoHoles(dims) && TripsOf(a) == TripsOf(b)
    requires forall i :: 0 <= i < |dims| ==> !UsesZones(dims[i])
    ensures HasKey(E, a, dims, key) <==> HasKey(E, b, dims, key)
    ensures RowFor(E, a, dims, measures, key) == RowFor(E, b, dims, measures, key)
  {
    assert |a| == |TripsOf(a)| == |TripsOf(b)| == |b|;
    forall s: Scope, s': Scope | s.t == s'.t
      ensures KeyOf(E, dims, s) == KeyOf(E, dims, s')
    {
      forall i | 0 <= i < |dims|
        ensures Eval(E, s, dims[i], []) == Eval(E, s', dims[i], [])
      {
        ZoneFreeEval(E, s, s', dims[i], []);
      }
    }
    assert forall i :: 0 <= i < |a| ==> a[i].t == TripsOf(a)[i] == TripsOf(b)[i] == b[i].t;
    assert forall i :: 0 <= i < |a| ==> KeyOf(E, dims, a[i]) == KeyOf(E, dims, b[i]);
    FilterAligned(a, b, InGroup(E, dims, key));
  }

  // ---- ORDER BY ----

  /** The engine's order of cells, NULLs included, is linear in either direction. */
  ghost predicate LinearOrder(E: Engine) {
    && (forall d, x :: !E.before(d, x, x))
    && (forall d, x, y :: x != y ==> E.before(d, x, y) || E.before(d, y, x))
    && (forall d, x, y, z :: E.before(d, x, y) && E.before(d, y, z) ==> E.before(d, x, z))
  }

  /** Sort keys compared column by column. */
  predicate Lex(E: Engine, dirs: seq<Direction>, x: seq<Value>, y: seq<Value>)
    requires |x| == |y| == |dirs|
  {
    dirs != [] &&
    if x[0] == y[0] then Lex(E, dirs[1..], x[1..], y[1..]) else E.before(dirs[0], x[0], y[0])
  }

  lemma {:induction false} LexIsLinear(E: Engine, dirs: seq<Direction>, x: seq<Value>, y: seq<Value>)
    requires |x| == |y| == |dirs| && LinearOrder(E)
    ensures x == y ==> !Lex(E, dirs, x, y)
    ensures x != y ==> (Lex(E, dirs, x, y) <==> !Lex(E, dirs, y, x))
  {
    if dirs == [] {
    } else {
      LexIsLinear(E, dirs[1..], x[1..], y[1..]);
      assert x == [x[0]] + x[1..] && y == [y[0]] + y[1..];
    }
  }

  /** Sorted by `rank`: no row comes before one that it must follow. */
  ghost predicate Arranged<R(!new)>(E: Engine, dirs: seq<Direction>, rank: R -> seq<Value>, a: seq<R>) {
    && (forall i :: 0 <= i < |a| ==> |rank(a[i])| == |dirs|)
    && (forall i, j :: 0 <= i < j < |a| ==> !Lex(E, dirs, rank(a[j]), rank(a[i])))
  }

  ghost predicate Distinguishes<R(!new)>(rank: R -> seq<Value>, a: seq<R>) {
    forall i, j :: 0 <= i < j < |a| ==> rank(a[i]) != rank(a[j])
  }

  /** If the sort key tells all rows apart, there is only one way to sort them. */
  lemma {:induction false} OneArrangement<R(!new)>(E: Engine, dirs: seq<Direction>, rank: R -> seq<Value>, a: seq<R>, b: seq<R>)
    requires LinearOrder(E) && Arranged(E, dirs, rank, a) && Arranged(E, dirs, rank, b)
    requires Distinguishes(rank, a) && Distinguishes(rank, b)
    requires forall x :: x in a <==> x in b
    ensures a == b
  {
    assert a != [] ==> a[0] in b;
    assert b != [] ==> b[0] in a;
    if a == [] {
    } else {
      HeadsMeet(E, dirs, rank, a, b);
      forall x
        ensures x in a[1..] <==> x in b[1..]
      {
        TailHasRest(rank, a, x);
        TailHasRest(rank, b, x);
      }
      OneArrangement(E, dirs, rank, a[1..], b[1..]);
      assert a == [a[0]] + a[1..] && b == [b[0]] + b[1..];
    }
  }

  lemma TailHasRest<R(!new)>(rank: R -> seq<Value>, a: seq<R>, x: R)
    requires a != [] && Distinguishes(rank, a)
    ensures x in a[1..] <==> x in a && x != a[0]
  {
    assert a == [a[0]] + a[1..];
    if x in a[1..] {
      var i :| 0 <= i < |a[1..]| && a[1..][i] == x;
      assert a[i + 1] == x;
    }
  }

  lemma HeadsMeet<R(!new)>(E: Engine, dirs: seq<Direction>, rank: R -> seq<Value>, a: seq<R>, b: seq<R>)
    requires LinearOrder(E) && Arranged(E, dirs, rank, a) && Arranged(E, dirs, rank, b)
    requires Distinguishes(rank, a) && a != [] && b != []
    requires a[0] in b && b[0] in a
    ensures a[0] == b[0]
  {
    var i :| 0 <= i < |a| && a[i] == b[0];
    var j :| 0 <= j < |b| && b[j] == a[0];
    if i > 0 && j > 0 {
      LexIsLinear(E, dirs, rank(a[0]), rank(a[i]));
    }
  }

  // ---- An answer always exists ----

  lemma {:induction false} LexIsTransitive(E: Engine, dirs: seq<Direction>, x: seq<Value>, y: seq<Value>, z: seq<Value>)
    requires |x| == |y| == |z| == |dirs| && LinearOrder(E) && Lex(E, dirs, x, y) && Lex(E, dirs, y, z)
    ensures Lex(E, dirs, x, z)
  {
    if x[0] == y[0] == z[0] {
      LexIsTransitive(E, dirs[1..], x[1..], y[1..], z[1..]);
    } else if x[0] != y[0] && y[0] != z[0] {
      assert E.before(dirs[0], x[0], z[0]);
    }
  }

  function Insert<R(!new)>(E: Engine, dirs: seq<Direction>, rank: R -> seq<Value>, x: R, a: seq<R>): (r: seq<R>)
    requires |rank(x)| == |dirs| && forall i :: 0 <= i < |a| ==> |rank(a[i])| == |dirs|
    ensures multiset(r) == multiset(a) + multiset{x} && forall y :: y in r <==> y == x || y in a
  {
    if a == [] then [x]
    else if Lex(E, dirs, rank(x), rank(a[0])) then [x] + a
    else
      assert a == [a[0]] + a[1..];
      [a[0]] + Insert(E, dirs, rank, x, a[1..])
  }

  lemma {:induction false} InsertKeepsOrder<R(!new)>(E: Engine, dirs: seq<Direction>, rank: R -> seq<Value>, x: R, a: seq<R>)
    requires LinearOrder(E) && |rank(x)| == |dirs| && Arranged(E, dirs, rank, a)
    ensures Arranged(E, dirs, rank, Insert(E, dirs, rank, x, a))
  {
    if a == [] {
    } else {
      var r := Insert(E, dirs, rank, x, a);
      if Lex(E, dirs, rank(x), rank(a[0])) {
        forall j | 0 <= j < |a|
          ensures !Lex(E, dirs, rank(a[j]), rank(x))
        {
          LexIsLinear(E, dirs, rank(x), rank(a[0]));
          if Lex(E, dirs, rank(a[j]), rank(x)) {
            LexIsTransitive(E, dirs, rank(a[j]), rank(x), rank(a[0]));
          }
        }
        HeadFirst(E, dirs, rank, x, a);
      } else {
        InsertKeepsOrder(E, dirs, rank, x, a[1..]);
        HeadFirst(E, dirs, rank, a[0], Insert(E, dirs, rank, x, a[1..]));
      }
    }
  }

  lemma HeadFirst<R(!new)>(E: Engine, dirs: seq<Direction>, rank: R -> seq<Value>, x: R, a: seq<R>)
    requires |rank(x)| == |dirs| && Arranged(E, dirs, rank, a)
    requires forall y :: y in a ==> |rank(y)| == |dirs| && !Lex(E, dirs, rank(y), rank(x))
    ensures Arranged(E, dirs, rank, [x] + a)
  {
    var r := [x] + a;
    forall i, j | 0 <= i < j < |r|
      ensures !Lex(E, dirs, rank(r[j]), rank(r[i]))
    {
      assert r[j] == a[j - 1] && a[j - 1] in a;
    }
  }

  /** Any rows can be arranged. */
  lemma {:induction false} SomeArrangement<R(!new)>(E: Engine, dirs: seq<Direction>, rank: R -> seq<Value>, q: seq<R>) returns (a: seq<R>)
    requires LinearOrder(E) && forall i :: 0 <= i < |q| ==> |rank(q[i])| == |dirs|
    ensures Arranged(E, dirs, rank, a) && multiset(a) == multiset(q) && forall y :: y in a <==> y in q
  {
    if q == [] {
      a := [];
    } else {
      var b := SomeArrangement(E, dirs, rank, q[1..]);
      a := Insert(E, dirs, rank, q[0], b);
      InsertKeepsOrder(E, dirs, rank, q[0], b);
      assert q == [q[0]] + q[1..];
    }
  }

  lemma {:induction false} SomeKeys(E: Engine, rows: seq<Scope>, dims: seq<Expr>) returns (keys: seq<seq<Value>>)
    requires NoHoles(dims)
    ensures NoRepeats(keys) && forall k :: k in keys <==> HasKey(E, rows, dims, k)
  {
    if rows == [] {
      keys := [];
    } else {
      var front, last := rows[..|rows| - 1], rows[|rows| - 1];
      keys := SomeKeys(E, front, dims);
      var k0 := KeyOf(E, dims, last);
      forall k
        ensures HasKey(E, rows, dims, k) <==> HasKey(E, front, dims, k) || k == k0
      {
        assert forall i :: 0 <= i < |front| ==> front[i] == rows[i];
        assert rows[|rows| - 1] == last;
      }
      if k0 !in keys {
        keys := keys + [k0];
      }
    }
  }

  /** Any rows can be grouped. */
  lemma SomeGrouping(E: Engine, rows: seq<Scope>, dims: seq<Expr>, measures: seq<Measure>) returns (g: seq<Row>)
    requires NoHoles(dims)
    ensures IsGrouping(E, rows, dims, measures, g)
  {
    var keys := SomeKeys(E, rows, dims);
    if dims == [] && rows == [] {
      keys := [[]];
    }
    EmptyKey(E, rows, dims);
    g := seq(|keys|, i requires 0 <= i < |keys| => RowFor(E, rows, dims, measures, keys[i]));
    assert forall i :: 0 <= i < |g| ==> g[i].key == keys[i];
    forall key
      ensures Appears(g, key) <==> key in keys
    {
      if key in keys {
        var i :| 0 <= i < |keys| && keys[i] == key;
        assert g[i].key == key;
      }
    }
  }

  lemma EmptyKey(E: Engine, rows: seq<Scope>, dims: seq<Expr>)
    requires NoHoles(dims)
    ensures dims == [] && rows != [] ==> HasKey(E, rows, dims, [])
    ensures rows == [] ==> forall key :: !HasKey(E, rows, dims, key)
  {
    if dims == [] && rows != [] {
      assert KeyOf(E, dims, rows[0]) == [];
    }
  }

  /** Grouped and sorted rows exist for every query. */
  lemma SomeArrangedGrouping(E: Engine, rows: seq<Scope>, dims: seq<Expr>, measures: seq<Measure>, dirs: seq<Direction>, rank: Row -> seq<Value>)
    returns (a: seq<Row>)
    requires NoHoles(dims) && LinearOrder(E) && forall r :: |rank(r)| == |dirs|
    ensures IsGrouping(E, rows, dims, measures, a) && Arranged(E, dirs, rank, a)
  {
    var g := SomeGrouping(E, rows, dims, measures);
    a := SomeArrangement(E, dirs, rank, g);
    PermutationKeepsDistinct(a, g);
    forall i | 0 <= i < |a|
      ensures a[i] == RowFor(E, rows, dims, measures, a[i].key)
    {
      assert a[i] in g;
    }
    forall key
      ensures Appears(a, key) <==> Appears(g, key)
    {
      if Appears(g, key) {
        var i :| 0 <= i < |g| && g[i].key == key;
        assert g[i] in a;
      }
      if Appears(a, key) {
        var i :| 0 <= i < |a| && a[i].key == key;
        assert a[i] in g;
      }
    }
  }
}
