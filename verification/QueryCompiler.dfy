/**
 * The governed query compiler (services/dataset_spike/dataset_spike/query_compiler.py) over the
 * validated specs of query_spec.py.
 *
 * `CompileFilters` is proved against a predicate on rows that never mentions SQL; the four queries
 * bind their parameters in order, and their results are determined by the database alone.
 */
module QueryCompiler {
  import opened Basics
  import opened Sql

  // ---- Specs ----

  datatype Dimension =
    | PickupDate | PickupHour | PickupWeekday | PickupWeekPart
    | ByPickupZone | ByPickupBorough | ByDropoffZone | ByDropoffBorough
    | PaymentType | RateCode | ByVendor
    | PassengerBucket | DistanceBucket | DurationBucket | FareBucket | AirportTrip

  datatype TaxiFilters = TaxiFilters(
    start: Option<string>,
    end: Option<string>,
    hourMin: Option<int>,
    hourMax: Option<int>,
    weekday: Option<string>,
    weekPart: Option<string>,
    pickupZone: Option<string>,
    pickupBorough: Option<string>,
    dropoffZone: Option<string>,
    dropoffBorough: Option<string>,
    payment: Option<int>,
    rate: Option<int>,
    vendor: Option<int>,
    passengersMin: Option<int>,
    passengersMax: Option<int>,
    distanceMin: Option<real>,
    distanceMax: Option<real>,
    durationMin: Option<real>,
    durationMax: Option<real>,
    fareMin: Option<real>,
    fareMax: Option<real>,
    airport: Option<bool>,
    validOnly: bool)
  {
    predicate UsesZoneJoin() {
      pickupZone.Some? || pickupBorough.Some? || dropoffZone.Some? || dropoffBorough.Some? || airport.Some?
    }
  }

  const NoFilters: TaxiFilters :=
    TaxiFilters(None, None, None, None, None, None, None, None, None, None, None, None,
                None, None, None, None, None, None, None, None, None, None, true)

  /** Microseconds since 1970 at the ends of January 2024. */
  const January := 1704067200000000
  const February := 1706745600000000

  const Airports: seq<Value> := [Text("JFK Airport"), Text("LaGuardia Airport"), Text("Newark Airport")]

  // ---- What the filters mean, row by row ----

  predicate AtLeast(x: Option<real>, bound: Option<real>) {
    bound.Some? ==> x.Some? && x.value >= bound.value
  }

  predicate AtMost(x: Option<real>, bound: Option<real>) {
    bound.Some? ==> x.Some? && x.value <= bound.value
  }

  predicate Same<T(==)>(x: Option<T>, wanted: Option<T>) {
    wanted.Some? ==> x == wanted
  }

  predicate SameName(E: Engine, x: Option<string>, wanted: Option<string>) {
    wanted.Some? ==> x.Some? && E.lower(x.value) == E.lower(wanted.value)
  }

  function AsReal(x: Option<int>): Option<real> {
    if x.Some? then Some(x.value as real) else None
  }

  /** Trip length in minutes, when both ends are known. */
  function Duration(E: Engine, t: Trip): Option<real> {
    if t.pickup.Some? && t.dropoff.Some? then Some(E.minutes(t.pickup.value, t.dropoff.value) as real) else None
  }

  function HourOf(E: Engine, t: Trip): Option<real> {
    if t.pickup.Some? then Some(E.hour(t.pickup.value) as real) else None
  }

  predicate IsValid(t: Trip) {
    && t.pickup.Some? && January <= t.pickup.value < February
    && t.fare.Some? && t.fare.value >= 0.0
    && t.total.Some? && t.total.value >= 0.0
    && t.dropoff.Some? && t.dropoff.value >= t.pickup.value
  }

  predicate KeepsTime(E: Engine, f: TaxiFilters, t: Trip) {
    && (f.start.Some? ==> t.pickup.Some? && t.pickup.value >= E.parse(f.start.value))
    && (f.end.Some? ==> t.pickup.Some? && t.pickup.value < E.parse(f.end.value))
    && AtLeast(HourOf(E, t), AsReal(f.hourMin)) && AtMost(HourOf(E, t), AsReal(f.hourMax))
    && (f.weekday.Some? ==> t.pickup.Some? && E.dayName(t.pickup.value) == f.weekday.value)
    && (f.weekPart.Some? ==>
          t.pickup.Some? && (f.weekPart.value == "weekend" <==> E.isoDow(t.pickup.value) in {6, 7}))
  }

  predicate KeepsPlace(E: Engine, f: TaxiFilters, s: Scope) {
    && SameName(E, ZoneName(s.pz), f.pickupZone) && SameName(E, ZoneBorough(s.pz), f.pickupBorough)
    && SameName(E, ZoneName(s.dz), f.dropoffZone) && SameName(E, ZoneBorough(s.dz), f.dropoffBorough)
  }

  predicate KeepsCodes(f: TaxiFilters, t: Trip) {
    Same(t.payment, f.payment) && Same(t.rate, f.rate) && Same(t.vendor, f.vendor)
  }

  predicate KeepsSize(E: Engine, f: TaxiFilters, t: Trip) {
    && AtLeast(AsReal(t.passengers), AsReal(f.passengersMin)) && AtMost(AsReal(t.passengers), AsReal(f.passengersMax))
    && AtLeast(t.distance, f.distanceMin) && AtMost(t.distance, f.distanceMax)
    && AtLeast(Duration(E, t), f.durationMin) && AtMost(Duration(E, t), f.durationMax)
    && AtLeast(t.fare, f.fareMin) && AtMost(t.fare, f.fareMax)
  }

  predicate IsAirportTrip(s: Scope) {
    || Name(ZoneName(s.pz)) in Airports
    || Name(ZoneName(s.dz)) in Airports
    || s.t.rate == Some(2) || s.t.rate == Some(3)
  }

  /** The row satisfies every filter that is set. */
  predicate Keeps(E: Engine, f: TaxiFilters, s: Scope) {
    && (f.validOnly ==> IsValid(s.t))
    && KeepsTime(E, f, s.t) && KeepsPlace(E, f, s) && KeepsCodes(f, s.t) && KeepsSize(E, f, s.t)
    && (f.airport.Some? ==> IsAirportTrip(s) == f.airport.value)
  }

  // ---- Compiling the filters ----

  const DurationExpr: Expr := Bin(Minutes, Col(Pickup), Col(Dropoff))

  const PickupAtAirport: Expr := Un(In(Airports), Col(PickupZone))
  const DropoffAtAirport: Expr := Un(In(Airports), Col(DropoffZone))
  const AirportRate: Expr := Un(In([Num(2.0), Num(3.0)]), Col(Rate))

  const AirportExpr: Expr :=
    Un(OrElse(Bool(false)), Bin(Or, Bin(Or, PickupAtAirport, DropoffAtAirport), AirportRate))

  /** The clauses with these parameters say what `f` says, and refer to a zone exactly when `f` does. */
  ghost predicate Faithful(f: TaxiFilters, clauses: seq<Expr>, parameters: seq<Value>) {
    && Holes(Conj(clauses)) == |parameters|
    && UsesZones(Conj(clauses)) == f.UsesZoneJoin()
    && forall E, s :: Kept(E, s, clauses, parameters) <==> Keeps(E, f, s)
  }

  function TextArg(x: Option<string>): Option<Value> {
    if x.Some? then Some(Text(x.value)) else None
  }

  function NumArg(x: Option<real>): Option<Value> {
    if x.Some? then Some(Num(x.value)) else None
  }

  function IntArg(x: Option<int>): Option<Value> {
    NumArg(AsReal(x))
  }

  /** What an optional comparison `l op ?` asks of a row. */
  predicate Passes(E: Engine, s: Scope, l: Expr, op: Op, arg: Option<Value>)
    requires Holes(l) == 0
  {
    arg.Some? ==> IsTrue(Compare(E, op, Eval(E, s, l, []), arg.value))
  }

  /** One optional comparison with a parameter: `if x is not None` append the clause and the value. */
  method Test(cs: seq<Expr>, ps: seq<Value>, l: Expr, op: Op, arg: Option<Value>)
    returns (clauses: seq<Expr>, parameters: seq<Value>)
    requires Holes(Conj(cs)) == |ps| && Holes(l) == 0
    ensures Holes(Conj(clauses)) == |parameters|
    ensures UsesZones(Conj(clauses)) == (UsesZones(Conj(cs)) || (arg.Some? && UsesZones(l)))
    ensures forall E, s :: Kept(E, s, clauses, parameters) <==> Kept(E, s, cs, ps) && Passes(E, s, l, op, arg)
  {
    clauses, parameters := cs, ps;
    if arg.Some? {
      var c := Bin(Cmp(op), l, Hole);
      AppendNarrows(cs, ps, c, [arg.value]);
      assert [arg.value][..0] == [] && [arg.value][0..] == [arg.value];
      assert forall E, s :: Eval(E, s, c, [arg.value]) == Compare(E, op, Eval(E, s, l, []), arg.value);
      clauses := clauses + [c];
      parameters := parameters + [arg.value];
    }
  }

  /** An optional zone or borough name, compared without regard to case. */
  method TestName(cs: seq<Expr>, ps: seq<Value>, col: Column, name: Option<string>)
    returns (clauses: seq<Expr>, parameters: seq<Value>)
    requires Holes(Conj(cs)) == |ps| && UsesZones(Col(col))
    ensures Holes(Conj(clauses)) == |parameters|
    ensures UsesZones(Conj(clauses)) == (UsesZones(Conj(cs)) || name.Some?)
    ensures forall E, s :: Kept(E, s, clauses, parameters) <==>
                           Kept(E, s, cs, ps) && (name.Some? ==> Apply(E, Lower, Fetch(s, col)) == Text(E.lower(name.value)))
  {
    clauses, parameters := cs, ps;
    if name.Some? {
      var v := Text(name.value);
      var l, r := Un(Lower, Col(col)), Un(Lower, Hole);
      AppendNarrows(cs, ps, Bin(Cmp(Eq), l, r), [v]);
      assert [v][..0] == [] && [v][0..] == [v];
      forall E, s
        ensures IsTrue(Eval(E, s, Bin(Cmp(Eq), l, r), [v])) <==> Apply(E, Lower, Fetch(s, col)) == Text(E.lower(name.value))
      {
        assert Eval(E, s, l, []) == Apply(E, Lower, Fetch(s, col));
        assert Eval(E, s, r, [v]) == Text(E.lower(name.value));
      }
      clauses := clauses + [Bin(Cmp(Eq), l, r)];
      parameters := parameters + [v];
    }
  }

  /** Clauses without parameters and without zones. */
  lemma {:induction false} FixedClauses(fixed: seq<Expr>)
    requires NoHoles(fixed) && forall i :: 0 <= i < |fixed| ==> !UsesZones(fixed[i])
    ensures Holes(Conj(fixed)) == 0 && !UsesZones(Conj(fixed))
  {
    if fixed == [] {
    } else {
      FixedClauses(fixed[..|fixed| - 1]);
    }
  }

  lemma {:induction false} FixedMeans(E: Engine, s: Scope, fixed: seq<Expr>)
    requires NoHoles(fixed) && Holes(Conj(fixed)) == 0
    ensures Kept(E, s, fixed, []) <==> All(E, s, fixed)
  {
    if fixed == [] {
    } else {
      var front, c := fixed[..|fixed| - 1], fixed[|fixed| - 1];
      FixedMeans(E, s, front);
      assert Conj(fixed) == Bin(And, Conj(front), c);
      assert Eval(E, s, Conj(fixed), []) == And3(Eval(E, s, Conj(front), []), Eval(E, s, c, []));
    }
  }

  predicate All(E: Engine, s: Scope, fixed: seq<Expr>)
    requires NoHoles(fixed)
  {
    forall i :: 0 <= i < |fixed| ==> IsTrue(Eval(E, s, fixed[i], []))
  }

  const ValidClauses: seq<Expr> := [
    Bin(And, Bin(Cmp(Ge), Col(Pickup), Lit(Time(January))), Bin(Cmp(Lt), Col(Pickup), Lit(Time(February)))),
    Bin(Cmp(Ge), Col(Fare), Lit(Num(0.0))),
    Bin(Cmp(Ge), Col(Total), Lit(Num(0.0))),
    Bin(Cmp(Ge), Col(Dropoff), Col(Pickup))]

  function WeekClause(part: string): Expr {
    var weekend := Un(In([Num(6.0), Num(7.0)]), Un(IsoDow, Col(Pickup)));
    if part == "weekend" then weekend else Un(Not, weekend)
  }

  lemma InWindow(E: Engine, s: Scope)
    ensures IsTrue(Eval(E, s, ValidClauses[0], [])) <==> s.t.pickup.Some? && January <= s.t.pickup.value < February
  {
    assert Eval(E, s, Lit(Time(January)), []) == Time(January) && Eval(E, s, Lit(Time(February)), []) == Time(February);
    assert Eval(E, s, ValidClauses[0].l, []) == Compare(E, Ge, Stamp(s.t.pickup), Time(January));
    assert Eval(E, s, ValidClauses[0].r, []) == Compare(E, Lt, Stamp(s.t.pickup), Time(February));
  }

  lemma ValidArePlain()
    ensures NoHoles(ValidClauses) && forall i :: 0 <= i < |ValidClauses| ==> !UsesZones(ValidClauses[i])
  {
  }

  lemma ValidMeans(E: Engine, s: Scope)
    ensures NoHoles(ValidClauses) && (All(E, s, ValidClauses) <==> IsValid(s.t))
  {
    ValidArePlain();
    InWindow(E, s);
    assert Eval(E, s, ValidClauses[1], []) == Compare(E, Ge, Real(s.t.fare), Num(0.0));
    assert Eval(E, s, ValidClauses[2], []) == Compare(E, Ge, Real(s.t.total), Num(0.0));
    assert Eval(E, s, ValidClauses[3], []) == Compare(E, Ge, Stamp(s.t.dropoff), Stamp(s.t.pickup));
  }

  lemma WeekMeans(E: Engine, s: Scope, part: string)
    ensures Holes(WeekClause(part)) == 0 && !UsesZones(WeekClause(part))
    ensures IsTrue(Eval(E, s, WeekClause(part), [])) <==>
            s.t.pickup.Some? && (part == "weekend" <==> E.isoDow(s.t.pickup.value) in {6, 7})
  {
    var weekend := Un(In([Num(6.0), Num(7.0)]), Un(IsoDow, Col(Pickup)));
    assert Eval(E, s, Un(IsoDow, Col(Pickup)), []) == Apply(E, IsoDow, Stamp(s.t.pickup));
    assert Eval(E, s, weekend, []) == Apply(E, weekend.f, Apply(E, IsoDow, Stamp(s.t.pickup)));
    assert part != "weekend" ==> Eval(E, s, WeekClause(part), []) == Apply(E, Not, Eval(E, s, weekend, []));
  }

  lemma PickupMeans(E: Engine, f: TaxiFilters, s: Scope)
    ensures Passes(E, s, Col(Pickup), Ge, TextArg(f.start)) <==>
            (f.start.Some? ==> s.t.pickup.Some? && s.t.pickup.value >= E.parse(f.start.value))
    ensures Passes(E, s, Col(Pickup), Lt, TextArg(f.end)) <==>
            (f.end.Some? ==> s.t.pickup.Some? && s.t.pickup.value < E.parse(f.end.value))
  {
  }

  lemma DayMeans(E: Engine, f: TaxiFilters, s: Scope)
    ensures Passes(E, s, Un(DayName, Col(Pickup)), Eq, TextArg(f.weekday)) <==>
            (f.weekday.Some? ==> s.t.pickup.Some? && E.dayName(s.t.pickup.value) == f.weekday.value)
    ensures f.weekPart.Some? ==>
              (IsTrue(Eval(E, s, WeekClause(f.weekPart.value), [])) <==>
               s.t.pickup.Some? && (f.weekPart.value == "weekend" <==> E.isoDow(s.t.pickup.value) in {6, 7}))
  {
    assert Eval(E, s, Un(DayName, Col(Pickup)), []) == Apply(E, DayName, Stamp(s.t.pickup));
    if f.weekPart.Some? {
      WeekMeans(E, s, f.weekPart.value);
    }
  }

  lemma TimeMeans(E: Engine, f: TaxiFilters, s: Scope)
    ensures KeepsTime(E, f, s.t) <==>
            && Passes(E, s, Col(Pickup), Ge, TextArg(f.start)) && Passes(E, s, Col(Pickup), Lt, TextArg(f.end))
            && Passes(E, s, Un(Hour, Col(Pickup)), Ge, IntArg(f.hourMin))
            && Passes(E, s, Un(Hour, Col(Pickup)), Le, IntArg(f.hourMax))
            && Passes(E, s, Un(DayName, Col(Pickup)), Eq, TextArg(f.weekday))
            && (f.weekPart.Some? ==> IsTrue(Eval(E, s, WeekClause(f.weekPart.value), [])))
  {
    PickupMeans(E, f, s);
    DayMeans(E, f, s);
    assert Eval(E, s, Un(Hour, Col(Pickup)), []) == Real(HourOf(E, s.t));
    RangeMeans(E, s, Un(Hour, Col(Pickup)), HourOf(E, s.t), AsReal(f.hourMin), AsReal(f.hourMax));
  }

  lemma RangeMeans(E: Engine, s: Scope, l: Expr, x: Option<real>, low: Option<real>, high: Option<real>)
    requires Holes(l) == 0 && Eval(E, s, l, []) == Real(x)
    ensures Passes(E, s, l, Ge, NumArg(low)) <==> AtLeast(x, low)
    ensures Passes(E, s, l, Le, NumArg(high)) <==> AtMost(x, high)
  {
  }

  lemma SizeMeans(E: Engine, f: TaxiFilters, s: Scope)
    ensures KeepsSize(E, f, s.t) <==>
            && Passes(E, s, Col(Passengers), Ge, IntArg(f.passengersMin)) && Passes(E, s, Col(Passengers), Le, IntArg(f.passengersMax))
            && Passes(E, s, Col(Distance), Ge, NumArg(f.distanceMin)) && Passes(E, s, Col(Distance), Le, NumArg(f.distanceMax))
            && Passes(E, s, DurationExpr, Ge, NumArg(f.durationMin)) && Passes(E, s, DurationExpr, Le, NumArg(f.durationMax))
            && Passes(E, s, Col(Fare), Ge, NumArg(f.fareMin)) && Passes(E, s, Col(Fare), Le, NumArg(f.fareMax))
  {
    assert Eval(E, s, DurationExpr, []) == Real(Duration(E, s.t));
    RangeMeans(E, s, Col(Passengers), AsReal(s.t.passengers), AsReal(f.passengersMin), AsReal(f.passengersMax));
    RangeMeans(E, s, Col(Distance), s.t.distance, f.distanceMin, f.distanceMax);
    RangeMeans(E, s, DurationExpr, Duration(E, s.t), f.durationMin, f.durationMax);
    RangeMeans(E, s, Col(Fare), s.t.fare, f.fareMin, f.fareMax);
  }

  /** Either operand true makes a disjunction true, and with no NULL left over it is false. */
  lemma OrMeans(E: Engine, s: Scope, l: Expr, r: Expr)
    requires Holes(l) == 0 && Holes(r) == 0
    ensures Holes(Bin(Or, l, r)) == 0 && UsesZones(Bin(Or, l, r)) == (UsesZones(l) || UsesZones(r))
    ensures Eval(E, s, Bin(Or, l, r), []) == Or3(Eval(E, s, l, []), Eval(E, s, r, []))
  {
    var none: seq<Value> := [];
    assert none[..0] == none && none[0..] == none;
  }

  lemma AirportRateMeans(E: Engine, s: Scope)
    ensures Holes(AirportRate) == 0
    ensures Eval(E, s, AirportRate, []) == if s.t.rate.None? then Null else Bool(s.t.rate == Some(2) || s.t.rate == Some(3))
  {
    assert Eval(E, s, Col(Rate), []) == Whole(s.t.rate);
  }

  lemma AtAirportMeans(E: Engine, s: Scope)
    ensures Holes(PickupAtAirport) == 0 && UsesZones(PickupAtAirport) && Holes(DropoffAtAirport) == 0
    ensures Eval(E, s, PickupAtAirport, []) == Apply(E, In(Airports), Name(ZoneName(s.pz)))
    ensures Eval(E, s, DropoffAtAirport, []) == Apply(E, In(Airports), Name(ZoneName(s.dz)))
  {
    assert Eval(E, s, Col(PickupZone), []) == Name(ZoneName(s.pz));
    assert Eval(E, s, Col(DropoffZone), []) == Name(ZoneName(s.dz));
  }

  lemma AirportMeans(E: Engine, s: Scope)
    ensures Holes(AirportExpr) == 0 && UsesZones(AirportExpr)
    ensures Eval(E, s, AirportExpr, []) == Bool(IsAirportTrip(s))
  {
    AtAirportMeans(E, s);
    AirportRateMeans(E, s);
    OrMeans(E, s, PickupAtAirport, DropoffAtAirport);
    OrMeans(E, s, Bin(Or, PickupAtAirport, DropoffAtAirport), AirportRate);
    var p, d, r := Eval(E, s, PickupAtAirport, []), Eval(E, s, DropoffAtAirport, []), Eval(E, s, AirportRate, []);
    assert Eval(E, s, AirportExpr, []) == Apply(E, OrElse(Bool(false)), Or3(Or3(p, d), r));
    CoalescedOr(E, p, d, r);
    assert IsTrue(p) <==> Name(ZoneName(s.pz)) in Airports;
    assert IsTrue(d) <==> Name(ZoneName(s.dz)) in Airports;
  }

  lemma CoalescedOr(E: Engine, p: Value, d: Value, r: Value)
    requires (p.Null? || p.Bool?) && (d.Null? || d.Bool?) && (r.Null? || r.Bool?)
    ensures Apply(E, OrElse(Bool(false)), Or3(Or3(p, d), r)) == Bool(IsTrue(p) || IsTrue(d) || IsTrue(r))
  {
  }

  lemma PlaceMeans(E: Engine, f: TaxiFilters, s: Scope)
    ensures KeepsPlace(E, f, s) <==>
            && (f.pickupZone.Some? ==> Apply(E, Lower, Fetch(s, PickupZone)) == Text(E.lower(f.pickupZone.value)))
            && (f.pickupBorough.Some? ==> Apply(E, Lower, Fetch(s, PickupBorough)) == Text(E.lower(f.pickupBorough.value)))
            && (f.dropoffZone.Some? ==> Apply(E, Lower, Fetch(s, DropoffZone)) == Text(E.lower(f.dropoffZone.value)))
            && (f.dropoffBorough.Some? ==> Apply(E, Lower, Fetch(s, DropoffBorough)) == Text(E.lower(f.dropoffBorough.value)))
  {
  }

  lemma CodesMean(E: Engine, f: TaxiFilters, s: Scope)
    ensures KeepsCodes(f, s.t) <==>
            && Passes(E, s, Col(Payment), Eq, IntArg(f.payment))
            && Passes(E, s, Col(Rate), Eq, IntArg(f.rate))
            && Passes(E, s, Col(Vendor), Eq, IntArg(f.vendor))
  {
  }

  method TimeClauses(f: TaxiFilters, cs: seq<Expr>, ps: seq<Value>) returns (clauses: seq<Expr>, parameters: seq<Value>)
    requires Holes(Conj(cs)) == |ps|
    ensures Holes(Conj(clauses)) == |parameters| && UsesZones(Conj(clauses)) == UsesZones(Conj(cs))
    ensures forall E, s :: Kept(E, s, clauses, parameters) <==> Kept(E, s, cs, ps) && KeepsTime(E, f, s.t)
  {
    clauses, parameters := Test(cs, ps, Col(Pickup), Ge, TextArg(f.start));
    clauses, parameters := Test(clauses, parameters, Col(Pickup), Lt, TextArg(f.end));
    clauses, parameters := Test(clauses, parameters, Un(Hour, Col(Pickup)), Ge, IntArg(f.hourMin));
    clauses, parameters := Test(clauses, parameters, Un(Hour, Col(Pickup)), Le, IntArg(f.hourMax));
    clauses, parameters := Test(clauses, parameters, Un(DayName, Col(Pickup)), Eq, TextArg(f.weekday));
    ghost var before := clauses;
    if f.weekPart.Some? {
      var c := WeekClause(f.weekPart.value);
      assert Holes(c) == 0 && !UsesZones(c);
      AppendNarrows(clauses, parameters, c, []);
      assert parameters + [] == parameters;
      clauses := clauses + [c];
    }
    assert forall E, s :: Kept(E, s, clauses, parameters) <==>
                          Kept(E, s, before, parameters)
                          && (f.weekPart.Some? ==> IsTrue(Eval(E, s, WeekClause(f.weekPart.value), [])));
    forall E, s
      ensures Kept(E, s, clauses, parameters) <==> Kept(E, s, cs, ps) && KeepsTime(E, f, s.t)
    {
      TimeMeans(E, f, s);
    }
  }

  method PlaceClauses(f: TaxiFilters, cs: seq<Expr>, ps: seq<Value>) returns (clauses: seq<Expr>, parameters: seq<Value>)
    requires Holes(Conj(cs)) == |ps|
    ensures Holes(Conj(clauses)) == |parameters|
    ensures UsesZones(Conj(clauses)) == (UsesZones(Conj(cs)) || f.pickupZone.Some? || f.pickupBorough.Some?
                                          || f.dropoffZone.Some? || f.dropoffBorough.Some?)
    ensures forall E, s :: Kept(E, s, clauses, parameters) <==> Kept(E, s, cs, ps) && KeepsPlace(E, f, s)
  {
    clauses, parameters := TestName(cs, ps, PickupZone, f.pickupZone);
    clauses, parameters := TestName(clauses, parameters, PickupBorough, f.pickupBorough);
    clauses, parameters := TestName(clauses, parameters, DropoffZone, f.dropoffZone);
    clauses, parameters := TestName(clauses, parameters, DropoffBorough, f.dropoffBorough);
    forall E, s
      ensures Kept(E, s, clauses, parameters) <==> Kept(E, s, cs, ps) && KeepsPlace(E, f, s)
    {
      PlaceMeans(E, f, s);
    }
  }

  method CodeClauses(f: TaxiFilters, cs: seq<Expr>, ps: seq<Value>) returns (clauses: seq<Expr>, parameters: seq<Value>)
    requires Holes(Conj(cs)) == |ps|
    ensures Holes(Conj(clauses)) == |parameters| && UsesZones(Conj(clauses)) == UsesZones(Conj(cs))
    ensures forall E, s :: Kept(E, s, clauses, parameters) <==> Kept(E, s, cs, ps) && KeepsCodes(f, s.t)
  {
    clauses, parameters := Test(cs, ps, Col(Payment), Eq, IntArg(f.payment));
    clauses, parameters := Test(clauses, parameters, Col(Rate), Eq, IntArg(f.rate));
    clauses, parameters := Test(clauses, parameters, Col(Vendor), Eq, IntArg(f.vendor));
    forall E, s
      ensures Kept(E, s, clauses, parameters) <==> Kept(E, s, cs, ps) && KeepsCodes(f, s.t)
    {
      CodesMean(E, f, s);
    }
  }

  method SizeClauses(f: TaxiFilters, cs: seq<Expr>, ps: seq<Value>) returns (clauses: seq<Expr>, parameters: seq<Value>)
    requires Holes(Conj(cs)) == |ps|
    ensures Holes(Conj(clauses)) == |parameters| && UsesZones(Conj(clauses)) == UsesZones(Conj(cs))
    ensures forall E, s :: Kept(E, s, clauses, parameters) <==> Kept(E, s, cs, ps) && KeepsSize(E, f, s.t)
  {
    clauses, parameters := TestRange(cs, ps, Col(Passengers), AsReal(f.passengersMin), AsReal(f.passengersMax));
    clauses, parameters := TestRange(clauses, parameters, Col(Distance), f.distanceMin, f.distanceMax);
    clauses, parameters := TestRange(clauses, parameters, DurationExpr, f.durationMin, f.durationMax);
    clauses, parameters := TestRange(clauses, parameters, Col(Fare), f.fareMin, f.fareMax);
    forall E, s
      ensures Kept(E, s, clauses, parameters) <==> Kept(E, s, cs, ps) && KeepsSize(E, f, s.t)
    {
      SizeMeans(E, f, s);
    }
  }

  /** A minimum and a maximum for one column. */
  method TestRange(cs: seq<Expr>, ps: seq<Value>, l: Expr, low: Option<real>, high: Option<real>)
    returns (clauses: seq<Expr>, parameters: seq<Value>)
    requires Holes(Conj(cs)) == |ps| && Holes(l) == 0 && !UsesZones(l)
    ensures Holes(Conj(clauses)) == |parameters| && UsesZones(Conj(clauses)) == UsesZones(Conj(cs))
    ensures forall E, s :: Kept(E, s, clauses, parameters) <==>
                           Kept(E, s, cs, ps) && Passes(E, s, l, Ge, NumArg(low)) && Passes(E, s, l, Le, NumArg(high))
  {
    clauses, parameters := Test(cs, ps, l, Ge, NumArg(low));
    clauses, parameters := Test(clauses, parameters, l, Le, NumArg(high));
  }

  /** `_compile_filters`: for every row, the clauses with their parameters bound in order say what the filters say. */
  method CompileFilters(filters: Option<TaxiFilters>) returns (clauses: seq<Expr>, parameters: seq<Value>)
    ensures Faithful(Chosen(filters), clauses, parameters)
  {
    clauses, parameters := [], [];
    var f := if filters.Some? then filters.value else NoFilters;
    if f.validOnly {
      clauses := clauses + ValidClauses;
    }
    ghost var start := clauses;
    ValidStart(f, clauses);
    clauses, parameters := TimeClauses(f, clauses, parameters);
    clauses, parameters := PlaceClauses(f, clauses, parameters);
    clauses, parameters := CodeClauses(f, clauses, parameters);
    clauses, parameters := SizeClauses(f, clauses, parameters);
    clauses, parameters := AirportClause(f, clauses, parameters);
    assert forall E, s :: Kept(E, s, start, []) <==> (f.validOnly ==> IsValid(s.t));
  }

  method AirportClause(f: TaxiFilters, cs: seq<Expr>, ps: seq<Value>) returns (clauses: seq<Expr>, parameters: seq<Value>)
    requires Holes(Conj(cs)) == |ps|
    ensures Holes(Conj(clauses)) == |parameters|
    ensures UsesZones(Conj(clauses)) == (UsesZones(Conj(cs)) || f.airport.Some?)
    ensures forall E, s :: Kept(E, s, clauses, parameters) <==>
                           Kept(E, s, cs, ps) && (f.airport.Some? ==> IsAirportTrip(s) == f.airport.value)
  {
    assert Holes(AirportExpr) == 0 && UsesZones(AirportExpr);
    var wanted := if f.airport.Some? then Some(Bool(f.airport.value)) else None;
    clauses, parameters := Test(cs, ps, AirportExpr, Eq, wanted);
    forall E, s
      ensures Passes(E, s, AirportExpr, Eq, wanted) <==> (f.airport.Some? ==> IsAirportTrip(s) == f.airport.value)
    {
      AirportMeans(E, s);
    }
  }

  function Chosen(filters: Option<TaxiFilters>): TaxiFilters {
    if filters.Some? then filters.value else NoFilters
  }

  lemma ValidStart(f: TaxiFilters, clauses: seq<Expr>)
    requires clauses == if f.validOnly then [] + ValidClauses else []
    ensures Holes(Conj(clauses)) == 0 && !UsesZones(Conj(clauses))
    ensures forall E, s :: Kept(E, s, clauses, []) <==> (f.validOnly ==> IsValid(s.t))
  {
    if f.validOnly {
      assert clauses == ValidClauses;
      ValidArePlain();
      FixedClauses(ValidClauses);
      forall E, s
        ensures Kept(E, s, ValidClauses, []) <==> IsValid(s.t)
      {
        ValidMeans(E, s);
        FixedMeans(E, s, ValidClauses);
      }
    }
  }

  // ---- Dimensions ----

  datatype Branch = When(test: Expr, outcome: Value)

  /** CASE WHEN ... THEN ... ELSE: the first branch whose test is true. */
  function Case(branches: seq<Branch>, otherwise: Expr): Expr {
    if branches == [] then otherwise
    else If(branches[0].test, Lit(branches[0].outcome), Case(branches[1..], otherwise))
  }

  lemma {:induction false} CaseAppend(bs: seq<Branch>, b: Branch, otherwise: Expr)
    ensures Case(bs + [b], otherwise) == Case(bs, If(b.test, Lit(b.outcome), otherwise))
  {
    if bs != [] {
      assert (bs + [b])[1..] == bs[1..] + [b];
      CaseAppend(bs[1..], b, otherwise);
    } else {
      assert bs + [b] == [b] && [b][1..] == [];
    }
  }

  function Below(column: Expr, edge: int): Expr {
    Bin(Cmp(Lt), column, Lit(Num(edge as real)))
  }

  /** The branches for the edges still to come, after `previous`. */
  function BucketsFrom(column: Expr, previous: Option<int>, edges: seq<int>): Expr
    decreases |edges|
  {
    if edges == [] then Lit(Bucket(previous, None))
    else If(Below(column, edges[0]), Lit(Bucket(previous, Some(edges[0]))), BucketsFrom(column, Some(edges[0]), edges[1..]))
  }

  function BucketExpr(column: Expr, edges: seq<int>): Expr {
    If(Un(IsNull, column), Lit(Text("unknown")), BucketsFrom(column, None, edges))
  }

  /** `_bucket_case`: the branches are appended edge by edge. */
  method BucketCase(column: Expr, edges: seq<int>) returns (e: Expr)
    ensures e == BucketExpr(column, edges)
  {
    var branches := [When(Un(IsNull, column), Text("unknown"))];
    var previous: Option<int> := None;
    for i := 0 to |edges|
      invariant Case(branches, BucketsFrom(column, previous, edges[i..])) == BucketExpr(column, edges)
    {
      var b := When(Below(column, edges[i]), Bucket(previous, Some(edges[i])));
      assert edges[i..][1..] == edges[i + 1..];
      CaseAppend(branches, b, BucketsFrom(column, Some(edges[i]), edges[i + 1..]));
      branches := branches + [b];
      previous := Some(edges[i]);
    }
    e := Case(branches, Lit(Bucket(previous, None)));
  }

  predicate Ascending(edges: seq<int>) {
    forall i, j :: 0 <= i < j < |edges| ==> edges[i] < edges[j]
  }

  /** [lo, hi) holds `x`, and is not cut by any edge. */
  predicate Covers(edges: seq<int>, x: real, lo: Option<int>, hi: Option<int>) {
    && (lo.Some? ==> lo.value as real <= x) && (hi.Some? ==> x < hi.value as real)
    && forall e :: e in edges ==> (lo.Some? && e <= lo.value) || (hi.Some? && hi.value <= e)
  }

  lemma BelowMeans(E: Engine, s: Scope, column: Expr, edge: int)
    requires Holes(column) == 0
    ensures Holes(Below(column, edge)) == 0
    ensures Eval(E, s, Below(column, edge), []) == Compare(E, Lt, Eval(E, s, column, []), Num(edge as real))
  {
  }

  lemma {:induction false} BucketPlain(column: Expr, previous: Option<int>, edges: seq<int>)
    requires Holes(column) == 0
    ensures Holes(BucketsFrom(column, previous, edges)) == 0
    ensures UsesZones(BucketsFrom(column, previous, edges)) ==> UsesZones(column)
    decreases |edges|
  {
    if edges == [] {
    } else {
      BucketPlain(column, Some(edges[0]), edges[1..]);
      var test, hit := Below(column, edges[0]), Lit(Bucket(previous, Some(edges[0])));
      assert Holes(test) == 0 && !UsesZones(hit) && UsesZones(test) == UsesZones(column);
      assert BucketsFrom(column, previous, edges) == If(test, hit, BucketsFrom(column, Some(edges[0]), edges[1..]));
    }
  }

  /** A CASE without parameters. */
  lemma BranchMeans(E: Engine, s: Scope, test: Expr, v: Value, otherwise: Expr)
    requires Holes(test) == 0 && Holes(otherwise) == 0
    ensures Holes(If(test, Lit(v), otherwise)) == 0
    ensures Eval(E, s, If(test, Lit(v), otherwise), []) == if IsTrue(Eval(E, s, test, [])) then v else Eval(E, s, otherwise, [])
  {
    var none: seq<Value> := [];
    assert none[..0] == none && none[0..] == none && none[0..0] == none;
    assert Eval(E, s, Lit(v), []) == v;
  }

  /** The label a number gets from the edges still to come. */
  function LabelFrom(previous: Option<int>, edges: seq<int>, x: real): Value
    decreases |edges|
  {
    if edges == [] then Bucket(previous, None)
    else if x < edges[0] as real then Bucket(previous, Some(edges[0]))
    else LabelFrom(Some(edges[0]), edges[1..], x)
  }

  lemma {:induction false} BucketsFromLabel(E: Engine, s: Scope, column: Expr, previous: Option<int>, edges: seq<int>)
    requires Holes(column) == 0 && Eval(E, s, column, []).Num?
    ensures Holes(BucketsFrom(column, previous, edges)) == 0
    ensures Eval(E, s, BucketsFrom(column, previous, edges), []) == LabelFrom(previous, edges, Eval(E, s, column, []).n)
    decreases |edges|
  {
    BucketPlain(column, previous, edges);
    if edges == [] {
    } else {
      var e, rest := edges[0], BucketsFrom(column, Some(edges[0]), edges[1..]);
      BelowMeans(E, s, column, e);
      BucketsFromLabel(E, s, column, Some(e), edges[1..]);
      BranchMeans(E, s, Below(column, e), Bucket(previous, Some(e)), rest);
    }
  }

  lemma {:induction false} LabelCovers(previous: Option<int>, edges: seq<int>, x: real)
    requires Ascending(edges)
    requires previous.Some? ==> previous.value as real <= x && forall e :: e in edges ==> previous.value < e
    ensures var v := LabelFrom(previous, edges, x);
            && v.Bucket? && Covers(edges, x, v.lo, v.hi)
            && (v.lo.Some? ==> v.lo.value in edges || v.lo == previous) && (v.hi.Some? ==> v.hi.value in edges)
            && (previous.Some? ==> v.lo.Some? && v.lo.value >= previous.value)
    decreases |edges|
  {
    if edges == [] {
    } else {
      assert edges == [edges[0]] + edges[1..];
      if x >= edges[0] as real {
        LabelCovers(Some(edges[0]), edges[1..], x);
      }
    }
  }

  /** A bucket label names the one interval between consecutive edges that holds the value; NULL is 'unknown'. */
  lemma BucketIsItsInterval(E: Engine, s: Scope, column: Expr, edges: seq<int>)
    requires Holes(column) == 0 && Ascending(edges)
    ensures Holes(BucketExpr(column, edges)) == 0
    ensures var x, v := Eval(E, s, column, []), Eval(E, s, BucketExpr(column, edges), []);
            && (x.Null? ==> v == Text("unknown"))
            && (x.Num? ==> v.Bucket? && Covers(edges, x.n, v.lo, v.hi)
                           && (v.lo.Some? ==> v.lo.value in edges) && (v.hi.Some? ==> v.hi.value in edges))
  {
    BucketPlain(column, None, edges);
    assert Holes(Un(IsNull, column)) == 0;
    BranchMeans(E, s, Un(IsNull, column), Text("unknown"), BucketsFrom(column, None, edges));
    if Eval(E, s, column, []).Num? {
      BucketsFromLabel(E, s, column, None, edges);
      LabelCovers(None, edges, Eval(E, s, column, []).n);
    }
  }

  /** Two values share a bucket if and only if no edge separates them. */
  lemma SameBucketIff(edges: seq<int>, x: real, y: real, a: Value, b: Value)
    requires Ascending(edges) && a.Bucket? && b.Bucket? && Covers(edges, x, a.lo, a.hi) && Covers(edges, y, b.lo, b.hi)
    requires (a.lo.Some? ==> a.lo.value in edges) && (a.hi.Some? ==> a.hi.value in edges)
    requires (b.lo.Some? ==> b.lo.value in edges) && (b.hi.Some? ==> b.hi.value in edges)
    ensures a == b <==> forall e :: e in edges ==> (x < e as real <==> y < e as real)
  {
  }

  predicate ZoneDimension(d: Dimension) {
    d.ByPickupZone? || d.ByPickupBorough? || d.ByDropoffZone? || d.ByDropoffBorough? || d.AirportTrip?
  }

  function DimExpr(d: Dimension): Expr {
    match d
    case PickupDate => Un(DateText, Col(Pickup))
    case PickupHour => Un(Hour, Col(Pickup))
    case PickupWeekday => Un(DayName, Col(Pickup))
    case PickupWeekPart => If(WeekClause("weekend"), Lit(Text("weekend")), Lit(Text("weekday")))
    case ByPickupZone => Col(PickupZone)
    case ByPickupBorough => Col(PickupBorough)
    case ByDropoffZone => Col(DropoffZone)
    case ByDropoffBorough => Col(DropoffBorough)
    case PaymentType => Un(AsInt, Col(Payment))
    case RateCode => Un(AsInt, Col(Rate))
    case ByVendor => Un(AsInt, Col(Vendor))
    case PassengerBucket => BucketExpr(Col(Passengers), [1, 2, 3, 4, 5, 6])
    case DistanceBucket => BucketExpr(Col(Distance), [1, 2, 5, 10, 20])
    case DurationBucket => BucketExpr(DurationExpr, [5, 10, 20, 30, 60])
    case FareBucket => BucketExpr(Col(Fare), [10, 20, 40, 75, 150])
    case AirportTrip => If(AirportExpr, Lit(Text("airport")), Lit(Text("non_airport")))
  }

  lemma SimpleDimensionsArePlain(d: Dimension)
    requires !d.PassengerBucket? && !d.DistanceBucket? && !d.DurationBucket? && !d.FareBucket?
    requires !d.AirportTrip? && !d.PickupWeekPart?
    ensures Holes(DimExpr(d)) == 0 && (UsesZones(DimExpr(d)) <==> ZoneDimension(d))
  {
  }

  lemma ChoiceIsPlain(test: Expr, v: Value, otherwise: Value)
    ensures Holes(If(test, Lit(v), Lit(otherwise))) == Holes(test)
    ensures UsesZones(If(test, Lit(v), Lit(otherwise))) == UsesZones(test)
  {
  }

  lemma AirportIsPlain()
    ensures Holes(AirportExpr) == 0 && UsesZones(AirportExpr)
  {
    var p, d := PickupAtAirport, DropoffAtAirport;
    assert Holes(p) == 0 && Holes(d) == 0 && Holes(AirportRate) == 0 && UsesZones(p);
    assert Holes(Bin(Or, p, d)) == 0 && UsesZones(Bin(Or, p, d));
  }

  lemma CaseDimensionsArePlain(d: Dimension)
    requires d.AirportTrip? || d.PickupWeekPart?
    ensures Holes(DimExpr(d)) == 0 && (UsesZones(DimExpr(d)) <==> ZoneDimension(d))
  {
    if d.AirportTrip? {
      AirportIsPlain();
      ChoiceIsPlain(AirportExpr, Text("airport"), Text("non_airport"));
    } else {
      assert Holes(WeekClause("weekend")) == 0 && !UsesZones(WeekClause("weekend"));
      ChoiceIsPlain(WeekClause("weekend"), Text("weekend"), Text("weekday"));
    }
  }

  /** No dimension takes a parameter, and exactly the zone dimensions mention a zone. */
  lemma DimensionsArePlain(d: Dimension)
    ensures Holes(DimExpr(d)) == 0 && (UsesZones(DimExpr(d)) <==> ZoneDimension(d))
  {
    match d
    case PassengerBucket => BucketExprPlain(Col(Passengers), [1, 2, 3, 4, 5, 6]);
    case DistanceBucket => BucketExprPlain(Col(Distance), [1, 2, 5, 10, 20]);
    case DurationBucket => BucketExprPlain(DurationExpr, [5, 10, 20, 30, 60]);
    case FareBucket => BucketExprPlain(Col(Fare), [10, 20, 40, 75, 150]);
    case AirportTrip => CaseDimensionsArePlain(d);
    case PickupWeekPart => CaseDimensionsArePlain(d);
    case _ => SimpleDimensionsArePlain(d);
  }

  lemma BucketExprPlain(column: Expr, edges: seq<int>)
    requires Holes(column) == 0 && !UsesZones(column)
    ensures Holes(BucketExpr(column, edges)) == 0 && !UsesZones(BucketExpr(column, edges))
  {
    BucketPlain(column, None, edges);
  }

  function DimExprs(dims: seq<Dimension>): (r: seq<Expr>)
    ensures |r| == |dims| && forall i :: 0 <= i < |dims| ==> r[i] == DimExpr(dims[i])
  {
    seq(|dims|, i requires 0 <= i < |dims| => DimExpr(dims[i]))
  }

  lemma DimExprsArePlain(dims: seq<Dimension>)
    ensures NoHoles(DimExprs(dims))
    ensures forall i :: 0 <= i < |dims| ==> (UsesZones(DimExprs(dims)[i]) <==> ZoneDimension(dims[i]))
  {
    forall i | 0 <= i < |dims|
      ensures Holes(DimExpr(dims[i])) == 0 && (UsesZones(DimExpr(dims[i])) <==> ZoneDimension(dims[i]))
    {
      DimensionsArePlain(dims[i]);
    }
  }

  // ---- What the dimensions mean, row by row ----

  function TextOrNull(x: Option<string>): Value {
    match x
    case Some(t) => Text(t)
    case None => Null
  }

  function IntOrNull(x: Option<int>): Value {
    match x
    case Some(n) => Num(n as real)
    case None => Null
  }

  /** The label of the interval between consecutive edges that holds `x`. */
  function BucketValue(edges: seq<int>, x: Option<real>): (v: Value)
    requires Ascending(edges)
    ensures x.None? ==> v == Text("unknown")
    ensures x.Some? ==> v.Bucket? && Covers(edges, x.value, v.lo, v.hi)
                        && (v.lo.Some? ==> v.lo.value in edges) && (v.hi.Some? ==> v.hi.value in edges)
  {
    match x
    case None => Text("unknown")
    case Some(n) =>
      LabelCovers(None, edges, n);
      LabelFrom(None, edges, n)
  }

  /** The value of a dimension on a trip with its zones. */
  function DimValue(E: Engine, d: Dimension, s: Scope): Value {
    var at := s.t.pickup;
    match d
    case PickupDate => if at.Some? then Text(E.dateText(at.value)) else Null
    case PickupHour => if at.Some? then Num(E.hour(at.value) as real) else Null
    case PickupWeekday => if at.Some? then Text(E.dayName(at.value)) else Null
    case PickupWeekPart => Text(if at.Some? && (E.isoDow(at.value) == 6 || E.isoDow(at.value) == 7) then "weekend" else "weekday")
    case ByPickupZone => if s.pz.Some? then TextOrNull(s.pz.value.name) else Null
    case ByPickupBorough => if s.pz.Some? then TextOrNull(s.pz.value.borough) else Null
    case ByDropoffZone => if s.dz.Some? then TextOrNull(s.dz.value.name) else Null
    case ByDropoffBorough => if s.dz.Some? then TextOrNull(s.dz.value.borough) else Null
    case PaymentType => IntOrNull(s.t.payment)
    case RateCode => IntOrNull(s.t.rate)
    case ByVendor => IntOrNull(s.t.vendor)
    case PassengerBucket => BucketValue([1, 2, 3, 4, 5, 6], if s.t.passengers.Some? then Some(s.t.passengers.value as real) else None)
    case DistanceBucket => BucketValue([1, 2, 5, 10, 20], s.t.distance)
    case DurationBucket =>
      BucketValue([5, 10, 20, 30, 60],
                  if at.Some? && s.t.dropoff.Some? then Some(E.minutes(at.value, s.t.dropoff.value) as real) else None)
    case FareBucket => BucketValue([10, 20, 40, 75, 150], s.t.fare)
    case AirportTrip => Text(if IsAirportTrip(s) then "airport" else "non_airport")
  }

  lemma BucketMeans(E: Engine, s: Scope, column: Expr, edges: seq<int>, x: Option<real>)
    requires Holes(column) == 0 && Ascending(edges) && Eval(E, s, column, []) == Real(x)
    ensures Holes(BucketExpr(column, edges)) == 0
    ensures Eval(E, s, BucketExpr(column, edges), []) == BucketValue(edges, x)
  {
    BucketPlain(column, None, edges);
    BranchMeans(E, s, Un(IsNull, column), Text("unknown"), BucketsFrom(column, None, edges));
    if x.Some? {
      BucketsFromLabel(E, s, column, None, edges);
    }
  }

  lemma ChoiceMeans(E: Engine, s: Scope, test: Expr, v: Value, otherwise: Value)
    requires Holes(test) == 0
    ensures Holes(If(test, Lit(v), Lit(otherwise))) == 0
    ensures Eval(E, s, If(test, Lit(v), Lit(otherwise)), []) == if IsTrue(Eval(E, s, test, [])) then v else otherwise
  {
    BranchMeans(E, s, test, v, Lit(otherwise));
  }

  lemma TimeDimensionMeans(E: Engine, d: Dimension, s: Scope)
    requires d.PickupDate? || d.PickupHour? || d.PickupWeekday?
    ensures Holes(DimExpr(d)) == 0 && Eval(E, s, DimExpr(d), []) == DimValue(E, d, s)
  {
    assert Eval(E, s, Col(Pickup), []) == Stamp(s.t.pickup);
  }

  lemma PlaceDimensionMeans(E: Engine, d: Dimension, s: Scope)
    requires d.ByPickupZone? || d.ByPickupBorough? || d.ByDropoffZone? || d.ByDropoffBorough?
    ensures Holes(DimExpr(d)) == 0 && Eval(E, s, DimExpr(d), []) == DimValue(E, d, s)
  {
  }

  lemma CodeDimensionMeans(E: Engine, d: Dimension, s: Scope)
    requires d.PaymentType? || d.RateCode? || d.ByVendor?
    ensures Holes(DimExpr(d)) == 0 && Eval(E, s, DimExpr(d), []) == DimValue(E, d, s)
  {
    assert Eval(E, s, Col(Payment), []) == Whole(s.t.payment);
    assert Eval(E, s, Col(Rate), []) == Whole(s.t.rate);
    assert Eval(E, s, Col(Vendor), []) == Whole(s.t.vendor);
  }

  lemma PassengersMean(E: Engine, s: Scope, edges: seq<int>)
    requires edges == [1, 2, 3, 4, 5, 6]
    ensures Holes(DimExpr(PassengerBucket)) == 0 && Eval(E, s, DimExpr(PassengerBucket), []) == DimValue(E, PassengerBucket, s)
  {
    assert Ascending(edges);
    assert DimExpr(PassengerBucket) == BucketExpr(Col(Passengers), edges);
    assert DimValue(E, PassengerBucket, s) == BucketValue(edges, AsReal(s.t.passengers));
    BucketMeans(E, s, Col(Passengers), edges, AsReal(s.t.passengers));
  }

  lemma DistanceMeans(E: Engine, s: Scope, edges: seq<int>)
    requires edges == [1, 2, 5, 10, 20]
    ensures Holes(DimExpr(DistanceBucket)) == 0 && Eval(E, s, DimExpr(DistanceBucket), []) == DimValue(E, DistanceBucket, s)
  {
    assert Ascending(edges);
    assert DimExpr(DistanceBucket) == BucketExpr(Col(Distance), edges);
    assert DimValue(E, DistanceBucket, s) == BucketValue(edges, s.t.distance);
    BucketMeans(E, s, Col(Distance), edges, s.t.distance);
  }

  lemma DurationMeans(E: Engine, s: Scope, edges: seq<int>)
    requires edges == [5, 10, 20, 30, 60]
    ensures Holes(DimExpr(DurationBucket)) == 0 && Eval(E, s, DimExpr(DurationBucket), []) == DimValue(E, DurationBucket, s)
  {
    assert Ascending(edges);
    assert DimExpr(DurationBucket) == BucketExpr(DurationExpr, edges);
    assert DimValue(E, DurationBucket, s) == BucketValue(edges, Duration(E, s.t));
    assert Holes(DurationExpr) == 0 && Eval(E, s, DurationExpr, []) == Real(Duration(E, s.t));
    BucketMeans(E, s, DurationExpr, edges, Duration(E, s.t));
  }

  lemma FareMeans(E: Engine, s: Scope, edges: seq<int>)
    requires edges == [10, 20, 40, 75, 150]
    ensures Holes(DimExpr(FareBucket)) == 0 && Eval(E, s, DimExpr(FareBucket), []) == DimValue(E, FareBucket, s)
  {
    assert Ascending(edges);
    assert DimExpr(FareBucket) == BucketExpr(Col(Fare), edges);
    assert DimValue(E, FareBucket, s) == BucketValue(edges, s.t.fare);
    BucketMeans(E, s, Col(Fare), edges, s.t.fare);
  }

  lemma ChoiceDimensionMeans(E: Engine, d: Dimension, s: Scope)
    requires d.AirportTrip? || d.PickupWeekPart?
    ensures Holes(DimExpr(d)) == 0 && Eval(E, s, DimExpr(d), []) == DimValue(E, d, s)
  {
    if d.AirportTrip? {
      AirportMeans(E, s);
      ChoiceMeans(E, s, AirportExpr, Text("airport"), Text("non_airport"));
    } else {
      WeekMeans(E, s, "weekend");
      ChoiceMeans(E, s, WeekClause("weekend"), Text("weekend"), Text("weekday"));
    }
  }

  /** Every dimension expression has, on every row, the value the dimension stands for. */
  lemma DimensionMeans(E: Engine, d: Dimension, s: Scope)
    ensures Holes(DimExpr(d)) == 0 && Eval(E, s, DimExpr(d), []) == DimValue(E, d, s)
  {
    if d.PickupDate? || d.PickupHour? || d.PickupWeekday? {
      TimeDimensionMeans(E, d, s);
    } else if d.ByPickupZone? || d.ByPickupBorough? || d.ByDropoffZone? || d.ByDropoffBorough? {
      PlaceDimensionMeans(E, d, s);
    } else if d.PaymentType? || d.RateCode? || d.ByVendor? {
      CodeDimensionMeans(E, d, s);
    } else if d.AirportTrip? || d.PickupWeekPart? {
      ChoiceDimensionMeans(E, d, s);
    } else {
      PassengersMean(E, s, [1, 2, 3, 4, 5, 6]);
      DistanceMeans(E, s, [1, 2, 5, 10, 20]);
      DurationMeans(E, s, [5, 10, 20, 30, 60]);
      FareMeans(E, s, [10, 20, 40, 75, 150]);
    }
  }

  /** The expressions take no parameter, mention a zone exactly for a zone dimension, and have the values of the dimensions. */
  ghost predicate Shows(dims: seq<Dimension>, es: seq<Expr>) {
    && |es| == |dims| && NoHoles(es)
    && (forall i :: 0 <= i < |es| ==> (UsesZones(es[i]) <==> ZoneDimension(dims[i])))
    && forall E, s, i :: 0 <= i < |es| ==> Eval(E, s, es[i], []) == DimValue(E, dims[i], s)
  }

  lemma DimExprsShow(dims: seq<Dimension>)
    ensures Shows(dims, DimExprs(dims))
  {
    DimExprsArePlain(dims);
    forall E, s, i | 0 <= i < |dims|
      ensures Eval(E, s, DimExprs(dims)[i], []) == DimValue(E, dims[i], s)
    {
      DimensionMeans(E, dims[i], s);
    }
  }

  /** The values of all dimensions on a row. */
  function Values(E: Engine, dims: seq<Dimension>, s: Scope): (key: seq<Value>)
    ensures |key| == |dims| && forall i :: 0 <= i < |dims| ==> key[i] == DimValue(E, dims[i], s)
  {
    seq(|dims|, i requires 0 <= i < |dims| => DimValue(E, dims[i], s))
  }

  /** The rows on which the dimensions have these values. */
  function WithValues(E: Engine, rows: seq<Scope>, dims: seq<Dimension>, key: seq<Value>): seq<Scope> {
    Filter(rows, (s: Scope) => Values(E, dims, s) == key)
  }

  /** What is reported for these values: each measure over the trips that have them, of all. */
  function Tally(E: Engine, rows: seq<Scope>, dims: seq<Dimension>, measures: seq<Measure>, key: seq<Value>): Row {
    var trips := TripsOf(WithValues(E, rows, dims, key));
    Row(key, seq(|measures|, i requires 0 <= i < |measures| => Measured(E, measures[i], trips, |rows|)))
  }

  predicate Occurs(E: Engine, rows: seq<Scope>, dims: seq<Dimension>, key: seq<Value>) {
    exists i :: 0 <= i < |rows| && Values(E, dims, rows[i]) == key
  }

  /** A report on `rows`: one line for each combination of values that occurs, a single one without dimensions. */
  ghost predicate Reports(E: Engine, rows: seq<Scope>, dims: seq<Dimension>, measures: seq<Measure>, out: seq<Row>) {
    && (forall key :: Appears(out, key) <==> Occurs(E, rows, dims, key) || (dims == [] && key == []))
    && (forall i :: 0 <= i < |out| ==> out[i] == Tally(E, rows, dims, measures, out[i].key))
    && (forall i, j :: 0 <= i < j < |out| ==> out[i].key != out[j].key)
  }

  /** Grouping by the expressions is grouping by the values. */
  lemma GroupsAreByValue(E: Engine, rows: seq<Scope>, dims: seq<Dimension>, es: seq<Expr>, measures: seq<Measure>, key: seq<Value>)
    requires Shows(dims, es)
    ensures HasKey(E, rows, es, key) <==> Occurs(E, rows, dims, key)
    ensures RowFor(E, rows, es, measures, key) == Tally(E, rows, dims, measures, key)
  {
    forall s: Scope
      ensures KeyOf(E, es, s) == Values(E, dims, s)
    {
      assert forall i :: 0 <= i < |dims| ==> KeyOf(E, es, s)[i] == Values(E, dims, s)[i];
    }
    FilterSame(rows, InGroup(E, es, key), (s: Scope) => Values(E, dims, s) == key);
  }

  lemma GroupingReports(E: Engine, rows: seq<Scope>, dims: seq<Dimension>, es: seq<Expr>, measures: seq<Measure>, out: seq<Row>)
    requires Shows(dims, es) && IsGrouping(E, rows, es, measures, out)
    ensures Reports(E, rows, dims, measures, out)
  {
    forall key
      ensures Appears(out, key) <==> Occurs(E, rows, dims, key) || (dims == [] && key == [])
    {
      GroupsAreByValue(E, rows, dims, es, measures, key);
    }
    forall i | 0 <= i < |out|
      ensures out[i] == Tally(E, rows, dims, measures, out[i].key)
    {
      GroupsAreByValue(E, rows, dims, es, measures, out[i].key);
    }
  }

  // ---- Queries ----

  datatype OutKey = OfDim(d: Dimension) | OfMeasure(m: Measure)

  datatype Term = Term(key: OutKey, dir: Direction)

  datatype Query =
    | Ranked(select: Select, columns: seq<OutKey>, order: seq<Term>)  // SELECT ... ORDER BY ... LIMIT ?
    | Compared(b: Select, c: Select)                                  // two CTEs, FULL OUTER JOIN, ORDER BY, LIMIT ?
    | Crossed(b: Select, c: Select)                                   // two CTEs, CROSS JOIN

  function SelectHoles(q: Select): nat {
    Holes(Conj(q.clauses))
  }

  /** Placeholders of the whole query, in the order of its text. */
  function QueryHoles(q: Query): nat {
    match q
    case Ranked(select, _, _) => SelectHoles(select) + 1
    case Compared(b, c) => SelectHoles(b) + SelectHoles(c) + 1
    case Crossed(b, c) => SelectHoles(b) + SelectHoles(c)
  }

  /** The zone aliases are joined if and only if something mentions them. */
  predicate Scoped(q: Select) {
    q.join <==> UsesZones(Conj(q.clauses)) || exists i :: 0 <= i < |q.dims| && UsesZones(q.dims[i])
  }

  predicate RequiresZoneJoin(dims: seq<Dimension>, filters: Option<TaxiFilters>) {
    (exists i :: 0 <= i < |dims| && ZoneDimension(dims[i])) || (filters.Some? && filters.value.UsesZoneJoin())
  }

  function Source(E: Engine, db: Database, q: Select, args: seq<Value>): seq<Scope> {
    Filter(From(q.join, db.trips, db.zones), (s: Scope) => Kept(E, s, q.clauses, args))
  }

  /** The rows a spec asks for. */
  function Wanted(E: Engine, db: Database, f: TaxiFilters, join: bool): seq<Scope> {
    Filter(From(join, db.trips, db.zones), (s: Scope) => Keeps(E, f, s))
  }

  lemma SourceIsWanted(E: Engine, db: Database, f: TaxiFilters, q: Select, args: seq<Value>)
    requires Faithful(f, q.clauses, args)
    ensures Source(E, db, q, args) == Wanted(E, db, f, q.join)
  {
    FilterSame(From(q.join, db.trips, db.zones), (s: Scope) => Kept(E, s, q.clauses, args), (s: Scope) => Keeps(E, f, s));
  }

  function OutputKeys(dims: seq<Dimension>, measures: seq<Measure>): (r: seq<OutKey>)
    ensures |r| == |dims| + |measures|
    ensures forall i :: 0 <= i < |dims| ==> r[i] == OfDim(dims[i])
    ensures forall i :: |dims| <= i < |r| ==> r[i].OfMeasure?
  {
    seq(|dims|, i requires 0 <= i < |dims| => OfDim(dims[i]))
    + seq(|measures|, i requires 0 <= i < |measures| => OfMeasure(measures[i]))
  }

  function Ascend(keys: seq<OutKey>): (r: seq<Term>)
    ensures |r| == |keys| && forall i :: 0 <= i < |keys| ==> r[i] == Term(keys[i], Asc)
  {
    seq(|keys|, i requires 0 <= i < |keys| => Term(keys[i], Asc))
  }

  predicate Mentions(order: seq<Term>, k: OutKey) {
    exists i :: 0 <= i < |order| && order[i].key == k
  }

  /** `_order_clause`: the requested key first, then every other output column. */
  function OrderClause(orderBy: Option<Term>, dims: seq<Dimension>, measures: seq<Measure>): (r: seq<Term>)
    ensures forall k :: k in OutputKeys(dims, measures) ==> Mentions(r, k)
    ensures orderBy.Some? ==> r != [] && r[0] == orderBy.value
  {
    var keys := OutputKeys(dims, measures);
    if orderBy.Some? then
      var others := Filter(keys, (k: OutKey) => k != orderBy.value.key);
      var r := [orderBy.value] + Ascend(others);
      assert forall k :: k in keys ==> Mentions(r, k) by {
        forall k | k in keys
          ensures Mentions(r, k)
        {
          if k == orderBy.value.key {
            assert r[0].key == k;
          } else {
            assert k in others;
            var j :| 0 <= j < |others| && others[j] == k;
            assert r[j + 1].key == k;
          }
        }
      }
      r
    else
      var r := Ascend(keys);
      assert forall k :: k in keys ==> Mentions(r, k) by {
        assert forall i :: 0 <= i < |keys| ==> r[i].key == keys[i];
      }
      r
  }

  datatype AggregateSpec = AggregateSpec(
    dimensions: seq<Dimension>,
    measures: seq<Measure>,
    filters: Option<TaxiFilters>,
    orderBy: Option<Term>,
    limit: nat)

  /** What a compiled aggregate query looks like. */
  ghost predicate CompilesAggregate(spec: AggregateSpec, q: Query, ps: seq<Value>) {
    && q.Ranked? && |ps| == QueryHoles(q)
    && Faithful(Chosen(spec.filters), q.select.clauses, ps[..|ps| - 1])
    && Shows(spec.dimensions, q.select.dims) && q.select.measures == spec.measures
    && q.select.join == RequiresZoneJoin(spec.dimensions, spec.filters)
    && q.columns == OutputKeys(spec.dimensions, spec.measures)
    && q.order == OrderClause(spec.orderBy, spec.dimensions, spec.measures)
  }

  /** `compile_aggregate_query`. */
  method CompileAggregate(spec: AggregateSpec) returns (q: Query, ps: seq<Value>)
    ensures CompilesAggregate(spec, q, ps) && ps[|ps| - 1] == Num((spec.limit + 1) as real)
    ensures Scoped(q.select)
  {
    var join := RequiresZoneJoin(spec.dimensions, spec.filters);
    var clauses, parameters := CompileFilters(spec.filters);
    q := Ranked(Select(DimExprs(spec.dimensions), spec.measures, join, clauses),
                OutputKeys(spec.dimensions, spec.measures),
                OrderClause(spec.orderBy, spec.dimensions, spec.measures));
    ps := parameters + [Num((spec.limit + 1) as real)];
    DimExprsShow(spec.dimensions);
    assert ps[..|ps| - 1] == parameters;
  }

  function PositionOf(keys: seq<OutKey>, k: OutKey): (i: nat)
    ensures i <= |keys| && (i < |keys| ==> keys[i] == k) && forall j :: 0 <= j < i ==> keys[j] != k
  {
    if keys == [] || keys[0] == k then 0 else 1 + PositionOf(keys[1..], k)
  }

  /** The cell of an output column, found by its name. */
  function Cell(columns: seq<OutKey>, row: Row, k: OutKey): Value {
    var i := PositionOf(columns, k);
    if i < |row.key| then row.key[i]
    else if i < |row.key| + |row.cells| then row.cells[i - |row.key|]
    else Null
  }

  function Rank(columns: seq<OutKey>, order: seq<Term>): Row -> seq<Value> {
    (row: Row) => seq(|order|, i requires 0 <= i < |order| => Cell(columns, row, order[i].key))
  }

  function Directions(order: seq<Term>): (r: seq<Direction>)
    ensures |r| == |order|
  {
    seq(|order|, i requires 0 <= i < |order| => order[i].dir)
  }

  /** `all` is an answer of the query before LIMIT cuts it. */
  ghost predicate IsRanked(E: Engine, db: Database, q: Query, ps: seq<Value>, all: seq<Row>) {
    && q.Ranked? && |ps| == QueryHoles(q) && NoHoles(q.select.dims)
    && IsGrouping(E, Source(E, db, q.select, ps[..|ps| - 1]), q.select.dims, q.select.measures, all)
    && Arranged(E, Directions(q.order), Rank(q.columns, q.order), all)
  }

  /** Every dimension takes part in the order. */
  predicate OrdersByAll(dims: seq<Dimension>, order: seq<Term>) {
    forall i :: 0 <= i < |dims| ==> Mentions(order, OfDim(dims[i]))
  }

  lemma KeysTellApart(dims: seq<Dimension>, measures: seq<Measure>, order: seq<Term>, x: Row, y: Row)
    requires NoRepeats(dims) && OrdersByAll(dims, order)
    requires |x.key| == |y.key| == |dims|
    requires var columns := OutputKeys(dims, measures); Rank(columns, order)(x) == Rank(columns, order)(y)
    ensures x.key == y.key
  {
    var columns := OutputKeys(dims, measures);
    forall i | 0 <= i < |dims|
      ensures x.key[i] == y.key[i]
    {
      assert Mentions(order, OfDim(dims[i]));
      var j :| 0 <= j < |order| && order[j].key == OfDim(dims[i]);
      assert PositionOf(columns, OfDim(dims[i])) == i;
      assert Rank(columns, order)(x)[j] == x.key[i] && Rank(columns, order)(y)[j] == y.key[i];
    }
  }

  lemma GroupKeyLength(E: Engine, rows: seq<Scope>, dims: seq<Expr>, measures: seq<Measure>, a: seq<Row>)
    requires NoHoles(dims) && IsGrouping(E, rows, dims, measures, a)
    ensures forall i :: 0 <= i < |a| ==> |a[i].key| == |dims|
  {
    forall i | 0 <= i < |a|
      ensures |a[i].key| == |dims|
    {
      assert Appears(a, a[i].key);
    }
  }

  /** A grouped query whose order mentions every dimension has exactly one answer, LIMIT or not. */
  lemma RankedIsDetermined(E: Engine, db: Database, dims: seq<Dimension>, q: Query, ps: seq<Value>, a: seq<Row>, b: seq<Row>)
    requires LinearOrder(E) && IsRanked(E, db, q, ps, a) && IsRanked(E, db, q, ps, b)
    requires Shows(dims, q.select.dims) && NoRepeats(dims)
    requires q.columns == OutputKeys(dims, q.select.measures) && OrdersByAll(dims, q.order)
    ensures a == b
  {
    var rows, ms := Source(E, db, q.select, ps[..|ps| - 1]), q.select.measures;
    GroupingsAgree(E, rows, q.select.dims, ms, a, b);
    GroupingsAgree(E, rows, q.select.dims, ms, b, a);
    RankDistinguishes(E, rows, dims, q.select.dims, ms, q.order, a);
    RankDistinguishes(E, rows, dims, q.select.dims, ms, q.order, b);
    OneArrangement(E, Directions(q.order), Rank(q.columns, q.order), a, b);
  }

  lemma RankDistinguishes(E: Engine, rows: seq<Scope>, dims: seq<Dimension>, es: seq<Expr>, measures: seq<Measure>,
                          order: seq<Term>, a: seq<Row>)
    requires |es| == |dims| && NoHoles(es) && IsGrouping(E, rows, es, measures, a)
    requires NoRepeats(dims) && OrdersByAll(dims, order)
    ensures Distinguishes(Rank(OutputKeys(dims, measures), order), a)
  {
    var rank := Rank(OutputKeys(dims, measures), order);
    GroupKeyLength(E, rows, es, measures, a);
    forall i, j | 0 <= i < j < |a|
      ensures rank(a[i]) != rank(a[j])
    {
      if rank(a[i]) == rank(a[j]) {
        KeysTellApart(dims, measures, order, a[i], a[j]);
      }
    }
  }

  lemma OrdersByEveryDimension(orderBy: Option<Term>, dims: seq<Dimension>, measures: seq<Measure>)
    ensures OrdersByAll(dims, OrderClause(orderBy, dims, measures))
  {
    var keys, order := OutputKeys(dims, measures), OrderClause(orderBy, dims, measures);
    forall i | 0 <= i < |dims|
      ensures Mentions(order, OfDim(dims[i]))
    {
      assert keys[i] == OfDim(dims[i]) && keys[i] in keys;
    }
  }

  /** The tie-breakers of `compile_aggregate_query` leave the engine no choice. */
  lemma AggregateIsDetermined(E: Engine, db: Database, spec: AggregateSpec, q: Query, ps: seq<Value>, a: seq<Row>, b: seq<Row>)
    requires LinearOrder(E) && NoRepeats(spec.dimensions) && CompilesAggregate(spec, q, ps)
    requires IsRanked(E, db, q, ps, a) && IsRanked(E, db, q, ps, b)
    ensures a == b
  {
    OrdersByEveryDimension(spec.orderBy, spec.dimensions, spec.measures);
    RankedIsDetermined(E, db, spec.dimensions, q, ps, a, b);
  }

  /**
   * The answer of an aggregate query is the report its spec asks for: of the trips that pass the filters, one line for
   * each combination of dimension values that occurs, with each measure over the trips that have these values.
   */
  lemma AggregateReports(E: Engine, db: Database, spec: AggregateSpec, q: Query, ps: seq<Value>, a: seq<Row>)
    requires CompilesAggregate(spec, q, ps) && IsRanked(E, db, q, ps, a)
    ensures Reports(E, Wanted(E, db, Chosen(spec.filters), RequiresZoneJoin(spec.dimensions, spec.filters)),
                    spec.dimensions, spec.measures, a)
  {
    SourceIsWanted(E, db, Chosen(spec.filters), q.select, ps[..|ps| - 1]);
    GroupingReports(E, Source(E, db, q.select, ps[..|ps| - 1]), spec.dimensions, q.select.dims, spec.measures, a);
  }

  /** The first column of the order in which two rows differ decides between them. */
  lemma {:induction false} LexDecides(E: Engine, dirs: seq<Direction>, x: seq<Value>, y: seq<Value>, p: nat)
    requires |x| == |y| == |dirs| && p < |dirs|
    requires x[..p] == y[..p] && x[p] != y[p]
    ensures Lex(E, dirs, x, y) <==> E.before(dirs[p], x[p], y[p])
  {
    if p > 0 {
      assert x[..p][0] == y[..p][0];
      assert x[1..][..p - 1] == x[..p][1..] && y[1..][..p - 1] == y[..p][1..];
      LexDecides(E, dirs[1..], x[1..], y[1..], p - 1);
    }
  }

  /** The answer is sorted: of two rows, the earlier has the earlier cell in the first column of the order that differs. */
  lemma RankedIsSorted(E: Engine, db: Database, q: Query, ps: seq<Value>, a: seq<Row>, i: nat, j: nat, p: nat)
    requires LinearOrder(E) && IsRanked(E, db, q, ps, a) && i < j < |a| && p < |q.order|
    requires forall m :: 0 <= m < p ==> Cell(q.columns, a[i], q.order[m].key) == Cell(q.columns, a[j], q.order[m].key)
    requires Cell(q.columns, a[i], q.order[p].key) != Cell(q.columns, a[j], q.order[p].key)
    ensures E.before(q.order[p].dir, Cell(q.columns, a[i], q.order[p].key), Cell(q.columns, a[j], q.order[p].key))
  {
    var rank := Rank(q.columns, q.order);
    var x, y := rank(a[i]), rank(a[j]);
    assert forall m :: 0 <= m < p ==> x[..p][m] == y[..p][m];
    assert x[..p] == y[..p];
    LexDecides(E, Directions(q.order), y, x, p);
  }

  /** Removing the one occurrence of an element. */
  lemma FilterOne(a: seq<OutKey>, k: OutKey, b: seq<OutKey>, f: OutKey -> bool)
    requires k !in a && k !in b && forall x :: f(x) <==> x != k
    ensures Filter(a + [k] + b, f) == a + b
  {
    FilterConcat(a + [k], b, f);
    FilterConcat(a, [k], f);
    FilterAll(a, f);
    FilterAll(b, f);
    FilterNone([k], f);
    assert a + [] == a;
  }

  lemma SplitsAt(keys: seq<OutKey>, p: nat)
    requires NoRepeats(keys) && p < |keys|
    ensures keys == keys[..p] + [keys[p]] + keys[p + 1..]
    ensures keys[p] !in keys[..p] && keys[p] !in keys[p + 1..]
  {
  }

  /** The tie-breakers are the other output columns, all ascending, in the order of the output. */
  lemma TieBreakersInOrder(orderBy: Option<Term>, dims: seq<Dimension>, measures: seq<Measure>, p: nat)
    requires NoRepeats(OutputKeys(dims, measures))
    requires orderBy.Some? ==> p < |dims| + |measures| && OutputKeys(dims, measures)[p] == orderBy.value.key
    ensures var keys, r := OutputKeys(dims, measures), OrderClause(orderBy, dims, measures);
            && |r| == |keys|
            && (orderBy.None? ==> forall i :: 0 <= i < |keys| ==> r[i] == Term(keys[i], Asc))
            && (orderBy.Some? ==>
                  && r[0] == orderBy.value
                  && forall i :: 0 <= i < |keys| && i != p ==> r[if i < p then i + 1 else i] == Term(keys[i], Asc))
  {
    if orderBy.Some? {
      var keys := OutputKeys(dims, measures);
      SplitsAt(keys, p);
      FilterOne(keys[..p], keys[p], keys[p + 1..], (k: OutKey) => k != orderBy.value.key);
      AscendWithout(orderBy.value, keys, p);
    }
  }

  lemma AscendWithout(first: Term, keys: seq<OutKey>, p: nat)
    requires p < |keys|
    ensures var r := [first] + Ascend(keys[..p] + keys[p + 1..]);
            && |r| == |keys| && r[0] == first
            && forall i :: 0 <= i < |keys| && i != p ==> r[if i < p then i + 1 else i] == Term(keys[i], Asc)
  {
    var rest := keys[..p] + keys[p + 1..];
    forall i | 0 <= i < |keys| && i != p
      ensures ([first] + Ascend(rest))[if i < p then i + 1 else i] == Term(keys[i], Asc)
    {
      assert rest[if i < p then i else i - 1] == keys[i];
    }
  }

  /** and there is an answer. */
  lemma RankedAnswerExists(E: Engine, db: Database, q: Query, ps: seq<Value>)
    requires LinearOrder(E) && q.Ranked? && |ps| == QueryHoles(q) && NoHoles(q.select.dims)
    ensures exists a :: IsRanked(E, db, q, ps, a)
  {
    var rows := Source(E, db, q.select, ps[..|ps| - 1]);
    var a := SomeArrangedGrouping(E, rows, q.select.dims, q.select.measures, Directions(q.order), Rank(q.columns, q.order));
    assert IsRanked(E, db, q, ps, a);
  }

  // ---- Dimension values ----

  /** The value of the dimension, as text, contains the search pattern. */
  predicate Matches(E: Engine, s: Scope, d: Dimension, search: Option<string>) {
    search.Some? ==>
      var v := DimValue(E, d, s);
      !v.Null? && E.like(E.lower(E.asText(v)), E.lower("%" + search.value + "%"))
  }

  /** The text of the value matches the pattern, without regard to case. */
  predicate Found(E: Engine, v: Value, pattern: string) {
    !v.Null? && E.like(E.lower(E.asText(v)), E.lower(pattern))
  }

  lemma SearchIsPlain(e: Expr)
    requires Holes(e) == 0
    ensures Holes(SearchClause(e)) == 1 && UsesZones(SearchClause(e)) == UsesZones(e)
  {
    var l, r := Un(Lower, Un(AsText, e)), Un(Lower, Hole);
    assert Holes(Un(AsText, e)) == 0 && UsesZones(Un(AsText, e)) == UsesZones(e);
    assert Holes(l) == 0 && Holes(r) == 1 && UsesZones(l) == UsesZones(e) && !UsesZones(r);
  }

  lemma SearchMeans(E: Engine, s: Scope, e: Expr, pattern: string)
    requires Holes(e) == 0 && Holes(SearchClause(e)) == 1
    ensures IsTrue(Eval(E, s, SearchClause(e), [Text(pattern)])) <==> Found(E, Eval(E, s, e, []), pattern)
  {
    var v := [Text(pattern)];
    var l, r := Un(Lower, Un(AsText, e)), Un(Lower, Hole);
    assert v[..0] == [] && v[0..] == v;
    assert Eval(E, s, Un(AsText, e), []) == Apply(E, AsText, Eval(E, s, e, []));
    assert Eval(E, s, l, []) == Apply(E, Lower, Eval(E, s, Un(AsText, e), []));
    assert Eval(E, s, r, v) == Text(E.lower(pattern));
  }

  function SearchClause(e: Expr): Expr {
    Bin(Like, Un(Lower, Un(AsText, e)), Un(Lower, Hole))
  }

  lemma SearchNarrows(e: Expr, clauses: seq<Expr>, pattern: string)
    requires Holes(e) == 0 && Holes(Conj(clauses)) == 0
    ensures var cs, ps := clauses + [SearchClause(e)], [Text(pattern)];
            && Holes(Conj(cs)) == 1
            && UsesZones(Conj(cs)) == (UsesZones(Conj(clauses)) || UsesZones(e))
            && forall E, s :: Kept(E, s, cs, ps) <==> Kept(E, s, clauses, []) && Found(E, Eval(E, s, e, []), pattern)
  {
    var c := SearchClause(e);
    SearchIsPlain(e);
    forall E, s
      ensures IsTrue(Eval(E, s, c, [Text(pattern)])) <==> Found(E, Eval(E, s, e, []), pattern)
    {
      SearchMeans(E, s, e, pattern);
    }
    AppendNarrows(clauses, [], c, [Text(pattern)]);
    assert [] + [Text(pattern)] == [Text(pattern)];
  }

  lemma ValuesMatch(d: Dimension, search: Option<string>)
    requires search.Some?
    ensures Holes(DimExpr(d)) == 0
    ensures forall E, s :: Found(E, Eval(E, s, DimExpr(d), []), "%" + search.value + "%") <==> Matches(E, s, d, search)
  {
    DimensionsArePlain(d);
    forall E, s
      ensures Eval(E, s, DimExpr(d), []) == DimValue(E, d, s)
    {
      DimensionMeans(E, d, s);
    }
  }

  /** The clauses of a dimension-values query. */
  method WindowClauses(d: Dimension, search: Option<string>) returns (clauses: seq<Expr>, parameters: seq<Value>)
    requires Holes(DimExpr(d)) == 0
    ensures Holes(Conj(clauses)) == |parameters| && UsesZones(Conj(clauses)) == (search.Some? && UsesZones(DimExpr(d)))
    ensures forall E, s :: Kept(E, s, clauses, parameters) <==> IsSearched(E, s, d, search)
  {
    clauses, parameters := [ValidClauses[0].l, ValidClauses[0].r], [];
    WindowStart(clauses);
    if search.Some? {
      var pattern := "%" + search.value + "%";
      SearchNarrows(DimExpr(d), clauses, pattern);
      ValuesMatch(d, search);
      clauses := clauses + [SearchClause(DimExpr(d))];
      parameters := parameters + [Text(pattern)];
      assert parameters == [Text(pattern)];
    }
  }

  /** A trip of the month whose value matches the search. */
  predicate IsSearched(E: Engine, s: Scope, d: Dimension, search: Option<string>) {
    s.t.pickup.Some? && January <= s.t.pickup.value < February && Matches(E, s, d, search)
  }

  /** What a compiled dimension-values query looks like. */
  ghost predicate CompilesValues(d: Dimension, search: Option<string>, q: Query, ps: seq<Value>) {
    && q.Ranked? && |ps| == QueryHoles(q)
    && (forall E, s :: Kept(E, s, q.select.clauses, ps[..|ps| - 1]) <==> IsSearched(E, s, d, search))
    && Shows([d], q.select.dims) && q.select.measures == [TripCount] && q.select.join == ZoneDimension(d)
    && q.columns == [OfDim(d), OfMeasure(TripCount)]
    && q.order == [Term(OfMeasure(TripCount), Desc), Term(OfDim(d), Asc)]
  }

  /** `compile_dimension_values_query`. */
  method CompileDimensionValues(d: Dimension, search: Option<string>, limit: nat) returns (q: Query, ps: seq<Value>)
    ensures CompilesValues(d, search, q, ps) && ps[|ps| - 1] == Num((limit + 1) as real) && Scoped(q.select)
  {
    DimensionsArePlain(d);
    var clauses, parameters := WindowClauses(d, search);
    q := Ranked(Select(DimExprs([d]), [TripCount], ZoneDimension(d), clauses), [OfDim(d), OfMeasure(TripCount)],
                [Term(OfMeasure(TripCount), Desc), Term(OfDim(d), Asc)]);
    ps := parameters + [Num((limit + 1) as real)];
    DimExprsShow([d]);
    OneDimension(d, search, q.select);
    Appended(parameters, Num((limit + 1) as real));
  }

  lemma Appended(ps: seq<Value>, v: Value)
    ensures (ps + [v])[..|ps + [v]| - 1] == ps
  {
  }

  /** Only the one dimension, and the search on it, can mention a zone. */
  lemma OneDimension(d: Dimension, search: Option<string>, q: Select)
    requires Holes(DimExpr(d)) == 0 && q.dims == DimExprs([d]) && q.join == ZoneDimension(d)
    requires UsesZones(Conj(q.clauses)) == (search.Some? && UsesZones(DimExpr(d)))
    ensures Scoped(q)
  {
    DimensionsArePlain(d);
    assert q.dims[0] == DimExpr(d);
  }

  lemma WindowStart(clauses: seq<Expr>)
    requires clauses == [ValidClauses[0].l, ValidClauses[0].r]
    ensures Holes(Conj(clauses)) == 0 && !UsesZones(Conj(clauses))
    ensures forall E, s :: Kept(E, s, clauses, []) <==> s.t.pickup.Some? && January <= s.t.pickup.value < February
  {
    var l, r := clauses[0], clauses[1];
    assert NoHoles(clauses) && !UsesZones(l) && !UsesZones(r);
    FixedClauses(clauses);
    forall E, s
      ensures Kept(E, s, clauses, []) <==> s.t.pickup.Some? && January <= s.t.pickup.value < February
    {
      assert Eval(E, s, l, []) == Compare(E, Ge, Stamp(s.t.pickup), Time(January));
      assert Eval(E, s, r, []) == Compare(E, Lt, Stamp(s.t.pickup), Time(February));
      assert All(E, s, clauses) <==> IsTrue(Eval(E, s, clauses[0], [])) && IsTrue(Eval(E, s, clauses[1], []));
      FixedMeans(E, s, clauses);
    }
  }

  lemma DimensionValuesAreDetermined(E: Engine, db: Database, d: Dimension, search: Option<string>, q: Query, ps: seq<Value>, a: seq<Row>, b: seq<Row>)
    requires LinearOrder(E) && CompilesValues(d, search, q, ps)
    requires IsRanked(E, db, q, ps, a) && IsRanked(E, db, q, ps, b)
    ensures a == b
  {
    assert q.order[1].key == OfDim([d][0]);
    assert OutputKeys([d], [TripCount]) == [OfDim(d), OfMeasure(TripCount)];
    RankedIsDetermined(E, db, [d], q, ps, a, b);
  }

  /** The rows a dimension-values query counts: trips of the month whose value matches the search. */
  function Searched(E: Engine, db: Database, d: Dimension, search: Option<string>): seq<Scope> {
    Filter(From(ZoneDimension(d), db.trips, db.zones), (s: Scope) => IsSearched(E, s, d, search))
  }

  /** The answer lists every value that occurs among the month's trips and matches the search, with its number of trips. */
  lemma DimensionValuesReport(E: Engine, db: Database, d: Dimension, search: Option<string>, q: Query, ps: seq<Value>, a: seq<Row>)
    requires CompilesValues(d, search, q, ps) && IsRanked(E, db, q, ps, a)
    ensures Reports(E, Searched(E, db, d, search), [d], [TripCount], a)
  {
    var args := ps[..|ps| - 1];
    FilterSame(From(q.select.join, db.trips, db.zones), (s: Scope) => Kept(E, s, q.select.clauses, args),
               (s: Scope) => IsSearched(E, s, d, search));
    GroupingReports(E, Source(E, db, q.select, args), [d], q.select.dims, [TripCount], a);
  }
}
