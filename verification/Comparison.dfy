/**
 * The two comparison queries of services/dataset_spike/dataset_spike/query_compiler.py: a FULL OUTER
 * JOIN of two grouped sides, and a CROSS JOIN of two whole-population sides.
 *
 * Each side of a comparison is what the same side would give on its own.
 */
module Comparison {
  import opened Basics
  import opened Sql
  import opened QueryCompiler

  // ---- FULL OUTER JOIN on equal keys, NULL keys being equal to each other ----

  /** A joined row: the row of either side, or its absence. */
  datatype Pair = Pair(b: Option<Row>, c: Option<Row>)

  function PairsOf(x: Row, c: seq<Row>): seq<Pair> {
    var ms := Filter(c, (y: Row) => y.key == x.key);
    if ms == [] then [Pair(Some(x), None)] else seq(|ms|, i requires 0 <= i < |ms| => Pair(Some(x), Some(ms[i])))
  }

  function FromLeft(b: seq<Row>, c: seq<Row>): seq<Pair> {
    if b == [] then [] else PairsOf(b[0], c) + FromLeft(b[1..], c)
  }

  function FromRight(b: seq<Row>, c: seq<Row>): seq<Pair> {
    if c == [] then []
    else (if Appears(b, c[0].key) then [] else [Pair(None, Some(c[0]))]) + FromRight(b, c[1..])
  }

  function OuterJoin(b: seq<Row>, c: seq<Row>): seq<Pair> {
    FromLeft(b, c) + FromRight(b, c)
  }

  predicate OneRowPerKey(rows: seq<Row>) {
    forall i, j :: 0 <= i < j < |rows| ==> rows[i].key != rows[j].key
  }

  /** The row of a key, if there is one. */
  function RowAt(rows: seq<Row>, key: seq<Value>): (r: Option<Row>)
    ensures r.Some? <==> Appears(rows, key)
    ensures r.Some? ==> r.value in rows && r.value.key == key
  {
    if rows == [] then None
    else if rows[0].key == key then
      assert Appears(rows, key);
      Some(rows[0])
    else
      assert Appears(rows, key) <==> Appears(rows[1..], key) by {
        assert rows == [rows[0]] + rows[1..];
        assert forall i :: 0 <= i < |rows[1..]| ==> rows[1..][i] == rows[i + 1];
      }
      RowAt(rows[1..], key)
  }

  /** coalesce(b.dim, c.dim), for the whole key. */
  function KeyOfPair(p: Pair): seq<Value> {
    if p.b.Some? then p.b.value.key else if p.c.Some? then p.c.value.key else []
  }

  function PairAt(b: seq<Row>, c: seq<Row>, key: seq<Value>): Pair {
    Pair(RowAt(b, key), RowAt(c, key))
  }

  lemma {:induction false} OnlyMatch(x: Row, c: seq<Row>)
    requires OneRowPerKey(c)
    ensures PairsOf(x, c) == [Pair(Some(x), RowAt(c, x.key))]
  {
    var f := (y: Row) => y.key == x.key;
    if c == [] {
    } else {
      OnlyMatch(x, c[1..]);
      assert Filter(c, f) == (if f(c[0]) then [c[0]] else []) + Filter(c[1..], f);
      if f(c[0]) {
        FilterNone(c[1..], f);
      }
    }
  }

  /** Each row of the left side meets its partner, or none. */
  lemma {:induction false} LeftIs(b: seq<Row>, c: seq<Row>)
    requires OneRowPerKey(c)
    ensures |FromLeft(b, c)| == |b|
    ensures forall i :: 0 <= i < |b| ==> FromLeft(b, c)[i] == Pair(Some(b[i]), RowAt(c, b[i].key))
  {
    if b == [] {
    } else {
      LeftIs(b[1..], c);
      OnlyMatch(b[0], c);
      assert FromLeft(b, c) == [Pair(Some(b[0]), RowAt(c, b[0].key))] + FromLeft(b[1..], c);
    }
  }

  lemma {:induction false} RightIs(b: seq<Row>, c: seq<Row>)
    requires OneRowPerKey(c)
    ensures forall p :: p in FromRight(b, c) <==> p.b.None? && p.c.Some? && p.c.value in c && !Appears(b, p.c.value.key)
    ensures forall i, j :: 0 <= i < j < |FromRight(b, c)| ==> FromRight(b, c)[i] != FromRight(b, c)[j]
  {
    if c == [] {
    } else {
      RightIs(b, c[1..]);
      var p0 := Pair(None, Some(c[0]));
      var head := if Appears(b, c[0].key) then [] else [p0];
      assert FromRight(b, c) == head + FromRight(b, c[1..]);
      assert p0 !in FromRight(b, c[1..]);
    }
  }

  lemma {:induction false} RowAtOf(rows: seq<Row>, x: Row)
    requires OneRowPerKey(rows) && x in rows
    ensures RowAt(rows, x.key) == Some(x)
  {
    if rows[0].key != x.key {
      RowAtOf(rows[1..], x);
    }
  }

  /** The join holds one pair for every key of either side, and nothing else. */
  lemma JoinHasEveryKey(b: seq<Row>, c: seq<Row>, p: Pair)
    requires OneRowPerKey(b) && OneRowPerKey(c)
    ensures p in OuterJoin(b, c) <==>
            (Appears(b, KeyOfPair(p)) || Appears(c, KeyOfPair(p))) && p == PairAt(b, c, KeyOfPair(p))
  {
    LeftIs(b, c);
    RightIs(b, c);
    if p in FromLeft(b, c) {
      var i :| 0 <= i < |b| && FromLeft(b, c)[i] == p;
      RowAtOf(b, b[i]);
    } else if p in FromRight(b, c) {
      RowAtOf(c, p.c.value);
    }
    if p == PairAt(b, c, KeyOfPair(p)) && Appears(b, KeyOfPair(p)) {
      var i :| 0 <= i < |b| && b[i] == p.b.value;
      assert FromLeft(b, c)[i] == p;
    }
  }

  lemma JoinIsDistinct(b: seq<Row>, c: seq<Row>)
    requires OneRowPerKey(b) && OneRowPerKey(c)
    ensures NoRepeats(OuterJoin(b, c))
  {
    LeftIs(b, c);
    RightIs(b, c);
    var l, r := FromLeft(b, c), FromRight(b, c);
    assert forall i :: 0 <= i < |l| ==> l[i].b == Some(b[i]);
    assert forall j :: 0 <= j < |r| ==> r[j] in r && r[j].b.None?;
    DistinctConcat(l, r);
  }

  lemma DistinctConcat(l: seq<Pair>, r: seq<Pair>)
    requires NoRepeats(l) && NoRepeats(r) && forall i, j :: 0 <= i < |l| && 0 <= j < |r| ==> l[i] != r[j]
    ensures NoRepeats(l + r)
  {
  }

  // ---- Comparing segments ----

  function OrZero(row: Option<Row>): Value {
    if row.Some? && row.value.cells != [] && !row.value.cells[0].Null? then row.value.cells[0] else Num(0.0)
  }

  /** ORDER BY the two first measures added up, then the segment. */
  function PairRank(E: Engine): Pair -> seq<Value> {
    (p: Pair) => [E.plus(OrZero(p.b), OrZero(p.c)), if |KeyOfPair(p)| == 1 then KeyOfPair(p)[0] else Null]
  }

  /** The parameters of the first and of the second CTE. */
  function FirstArgs(q: Query, ps: seq<Value>): seq<Value>
    requires !q.Ranked? && |ps| == QueryHoles(q)
  {
    ps[..SelectHoles(q.b)]
  }

  function SecondArgs(q: Query, ps: seq<Value>): seq<Value>
    requires !q.Ranked? && |ps| == QueryHoles(q)
  {
    ps[SelectHoles(q.b)..SelectHoles(q.b) + SelectHoles(q.c)]
  }

  /** `all` joins the groups `gb` and `gc` of the two sides and sorts them. */
  ghost predicate IsJoined(E: Engine, rb: seq<Scope>, rc: seq<Scope>, sb: Select, sc: Select,
                           gb: seq<Row>, gc: seq<Row>, all: seq<Pair>)
    requires NoHoles(sb.dims) && NoHoles(sc.dims)
  {
    && IsGrouping(E, rb, sb.dims, sb.measures, gb) && IsGrouping(E, rc, sc.dims, sc.measures, gc)
    && multiset(all) == multiset(OuterJoin(gb, gc))
    && Arranged(E, [Desc, Asc], PairRank(E), all)
  }

  /** `all` is an answer of a comparison before LIMIT cuts it, from the groups `gb` and `gc` of its sides. */
  ghost predicate IsCompared(E: Engine, db: Database, q: Query, ps: seq<Value>, gb: seq<Row>, gc: seq<Row>, all: seq<Pair>) {
    && q.Compared? && |ps| == QueryHoles(q) && NoHoles(q.b.dims) && NoHoles(q.c.dims)
    && IsJoined(E, Source(E, db, q.b, FirstArgs(q, ps)), Source(E, db, q.c, SecondArgs(q, ps)), q.b, q.c, gb, gc, all)
  }

  /** What a compiled comparison of segments looks like. */
  ghost predicate CompilesSegments(dim: Dimension, measures: seq<Measure>, fb: TaxiFilters, fc: TaxiFilters, q: Query, ps: seq<Value>) {
    && q.Compared? && |ps| == QueryHoles(q)
    && Faithful(fb, q.b.clauses, FirstArgs(q, ps)) && Faithful(fc, q.c.clauses, SecondArgs(q, ps))
    && q.b.dims == q.c.dims && Shows([dim], q.b.dims) && q.b.measures == q.c.measures == measures
    && q.b.join == q.c.join == (RequiresZoneJoin([dim], Some(fb)) || RequiresZoneJoin([dim], Some(fc)))
  }

  /** `compile_compare_segments_query`. */
  method CompileSegments(dim: Dimension, measures: seq<Measure>, fb: TaxiFilters, fc: TaxiFilters, limit: nat)
    returns (q: Query, ps: seq<Value>)
    ensures CompilesSegments(dim, measures, fb, fc, q, ps) && ps[|ps| - 1] == Num((limit + 1) as real)
    ensures (UsesZones(Conj(q.b.clauses)) || UsesZones(Conj(q.c.clauses)) || UsesZones(q.b.dims[0])) <==> q.b.join
  {
    var join := RequiresZoneJoin([dim], Some(fb)) || RequiresZoneJoin([dim], Some(fc));
    var bs, bp := CompileFilters(Some(fb));
    var cs, cp := CompileFilters(Some(fc));
    q := Compared(Select(DimExprs([dim]), measures, join, bs), Select(DimExprs([dim]), measures, join, cs));
    ps := bp + cp + [Num((limit + 1) as real)];
    assert FirstArgs(q, ps) == bp && SecondArgs(q, ps) == cp;
    DimExprsShow([dim]);
    assert DimExprs([dim])[0] == DimExpr(dim) && ZoneDimension([dim][0]) == ZoneDimension(dim);
  }

  // ---- Each side alone ----

  /** The rows one side selects when it is queried by itself. */
  function Alone(E: Engine, db: Database, dims: seq<Dimension>, f: TaxiFilters): seq<Scope> {
    Wanted(E, db, f, RequiresZoneJoin(dims, Some(f)))
  }

  lemma KeepsIgnoresZones(E: Engine, f: TaxiFilters, s: Scope, s': Scope)
    requires !f.UsesZoneJoin() && s.t == s'.t
    ensures Keeps(E, f, s) == Keeps(E, f, s')
  {
  }

  /** The trips a side without zone filters keeps. */
  function KeptTrips(E: Engine, db: Database, f: TaxiFilters): seq<Trip> {
    Filter(db.trips, (t: Trip) => Keeps(E, f, Scope(t, None, None)))
  }

  /**
   * Joining zones that a side does not need changes none of its trips, nor their number, if and only if every trip that
   * it keeps matches at most one zone at each end.
   */
  lemma ExtraJoinIsHarmlessIff(E: Engine, db: Database, f: TaxiFilters)
    requires !f.UsesZoneJoin()
    ensures var once := forall t :: t in KeptTrips(E, db, f) ==> MatchesOnce(t, db.zones);
            && (TripsOf(Wanted(E, db, f, true)) == TripsOf(Wanted(E, db, f, false)) <==> once)
            && (|Wanted(E, db, f, true)| == |Wanted(E, db, f, false)| <==> once)
  {
    var keep, keepTrip, kept := (s: Scope) => Keeps(E, f, s), (t: Trip) => Keeps(E, f, Scope(t, None, None)), KeptTrips(E, db, f);
    forall s: Scope
      ensures keep(s) == keepTrip(s.t)
    {
      KeepsIgnoresZones(E, f, s, Scope(s.t, None, None));
    }
    FilterBeforeJoin(true, db.trips, db.zones, keep, keepTrip);
    FilterBeforeJoin(false, db.trips, db.zones, keep, keepTrip);
    assert Wanted(E, db, f, true) == From(true, kept, db.zones);
    assert Wanted(E, db, f, false) == From(false, kept, db.zones);
    BareTrips(kept, db.zones);
    JoinIsNeutralIff(kept, db.zones);
    JoinNeverLosesRows(kept, db.zones);
    assert |TripsOf(From(false, kept, db.zones))| == |kept|;
  }

  /** A join the side does not need by itself multiplies none of its trips. */
  ghost predicate Harmless(E: Engine, db: Database, dims: seq<Dimension>, f: TaxiFilters, join: bool) {
    join && !RequiresZoneJoin(dims, Some(f)) ==> forall t :: t in KeptTrips(E, db, f) ==> MatchesOnce(t, db.zones)
  }

  /** A side of a comparison has the groups and the measures of that side alone. */
  lemma SideIsAlone(E: Engine, db: Database, dims: seq<Dimension>, es: seq<Expr>, measures: seq<Measure>, f: TaxiFilters, join: bool,
                    key: seq<Value>)
    requires Harmless(E, db, dims, f, join)
    requires Shows(dims, es) && (RequiresZoneJoin(dims, Some(f)) ==> join)
    ensures var wide, own := Wanted(E, db, f, join), Alone(E, db, dims, f);
            && |wide| == |own| && (HasKey(E, wide, es, key) <==> Occurs(E, own, dims, key))
            && RowFor(E, wide, es, measures, key) == Tally(E, own, dims, measures, key)
  {
    if join && !RequiresZoneJoin(dims, Some(f)) {
      ExtraJoinIsHarmlessIff(E, db, f);
      var wide, own := Wanted(E, db, f, true), Wanted(E, db, f, false);
      assert |wide| == |TripsOf(wide)| == |TripsOf(own)| == |own|;
      assert forall i :: 0 <= i < |dims| ==> !ZoneDimension(dims[i]);
      ZoneFreeGroups(E, wide, own, es, measures, key);
    }
    GroupsAreByValue(E, Alone(E, db, dims, f), dims, es, measures, key);
  }

  /** The row of a segment in the answer of one side alone: its measures over the side's trips with this value. */
  function AloneAt(E: Engine, db: Database, dim: Dimension, measures: seq<Measure>, f: TaxiFilters, key: seq<Value>): Option<Row> {
    var own := Alone(E, db, [dim], f);
    if Occurs(E, own, [dim], key) then Some(Tally(E, own, [dim], measures, key)) else None
  }

  lemma SideAt(E: Engine, db: Database, dim: Dimension, f: TaxiFilters, q: Select, args: seq<Value>, g: seq<Row>, key: seq<Value>)
    requires Harmless(E, db, [dim], f, q.join)
    requires Shows([dim], q.dims) && Faithful(f, q.clauses, args)
    requires RequiresZoneJoin([dim], Some(f)) ==> q.join
    requires IsGrouping(E, Source(E, db, q, args), q.dims, q.measures, g)
    ensures RowAt(g, key) == AloneAt(E, db, dim, q.measures, f, key)
  {
    SourceIsWanted(E, db, f, q, args);
    SideIsAlone(E, db, [dim], q.dims, q.measures, f, q.join, key);
    if RowAt(g, key).Some? {
      assert RowAt(g, key).value in g;
    }
  }

  /**
   * Every segment of either side appears exactly once, with the row each side alone would give it
   * and nothing where that side has no such segment.
   */
  lemma SegmentsAreComplete(E: Engine, db: Database, dim: Dimension, measures: seq<Measure>, fb: TaxiFilters, fc: TaxiFilters,
                            q: Query, ps: seq<Value>, gb: seq<Row>, gc: seq<Row>, all: seq<Pair>, key: seq<Value>)
    requires CompilesSegments(dim, measures, fb, fc, q, ps) && IsCompared(E, db, q, ps, gb, gc, all)
    requires Harmless(E, db, [dim], fb, q.b.join) && Harmless(E, db, [dim], fc, q.c.join)
    ensures var b, c := AloneAt(E, db, dim, measures, fb, key), AloneAt(E, db, dim, measures, fc, key);
            && ((exists i :: 0 <= i < |all| && KeyOfPair(all[i]) == key) <==> b.Some? || c.Some?)
            && (forall i :: 0 <= i < |all| && KeyOfPair(all[i]) == key ==> all[i] == Pair(b, c))
            && (forall i, j :: 0 <= i < j < |all| ==> KeyOfPair(all[i]) != KeyOfPair(all[j]))
  {
    SideAt(E, db, dim, fb, q.b, FirstArgs(q, ps), gb, key);
    SideAt(E, db, dim, fc, q.c, SecondArgs(q, ps), gc, key);
    AnswerIsJoin(gb, gc, all);
    var p := PairAt(gb, gc, key);
    if p.b.Some? || p.c.Some? {
      assert KeyOfPair(p) == key;
      assert p in all;
    }
  }

  /** Any arrangement of the join has the same pairs, each once, and one per key. */
  lemma AnswerIsJoin(gb: seq<Row>, gc: seq<Row>, all: seq<Pair>)
    requires OneRowPerKey(gb) && OneRowPerKey(gc) && multiset(all) == multiset(OuterJoin(gb, gc))
    ensures forall p :: p in all <==> (Appears(gb, KeyOfPair(p)) || Appears(gc, KeyOfPair(p))) && p == PairAt(gb, gc, KeyOfPair(p))
    ensures forall i, j :: 0 <= i < j < |all| ==> KeyOfPair(all[i]) != KeyOfPair(all[j])
    ensures forall i :: 0 <= i < |all| ==> all[i] == PairAt(gb, gc, KeyOfPair(all[i]))
  {
    forall p
      ensures p in all <==> (Appears(gb, KeyOfPair(p)) || Appears(gc, KeyOfPair(p))) && p == PairAt(gb, gc, KeyOfPair(p))
    {
      JoinHasEveryKey(gb, gc, p);
      SameElements(all, OuterJoin(gb, gc), p);
    }
    assert forall i :: 0 <= i < |all| ==> all[i] in all;
    JoinIsDistinct(gb, gc);
    PermutationKeepsDistinct(all, OuterJoin(gb, gc));
    DistinctKeys(gb, gc, all);
  }

  lemma SameElements(a: seq<Pair>, b: seq<Pair>, p: Pair)
    requires multiset(a) == multiset(b)
    ensures p in a <==> p in b
  {
    assert p in a <==> p in multiset(a);
    assert p in b <==> p in multiset(b);
  }

  lemma DistinctKeys(gb: seq<Row>, gc: seq<Row>, all: seq<Pair>)
    requires NoRepeats(all) && forall i :: 0 <= i < |all| ==> all[i] == PairAt(gb, gc, KeyOfPair(all[i]))
    ensures forall i, j :: 0 <= i < j < |all| ==> KeyOfPair(all[i]) != KeyOfPair(all[j])
  {
  }

  /** The order of a comparison leaves the engine no choice either. */
  lemma SegmentsAreDetermined(E: Engine, db: Database, dim: Dimension, q: Query, ps: seq<Value>, gb: seq<Row>, gc: seq<Row>,
                              a: seq<Pair>, hb: seq<Row>, hc: seq<Row>, b: seq<Pair>)
    requires LinearOrder(E) && q.Compared? && Shows([dim], q.b.dims) && Shows([dim], q.c.dims)
    requires IsCompared(E, db, q, ps, gb, gc, a) && IsCompared(E, db, q, ps, hb, hc, b)
    ensures a == b
  {
    var rb, rc := Source(E, db, q.b, FirstArgs(q, ps)), Source(E, db, q.c, SecondArgs(q, ps));
    JoinIsDetermined(E, rb, rc, q.b, q.c, gb, gc, a, hb, hc, b);
  }

  lemma JoinIsDetermined(E: Engine, rb: seq<Scope>, rc: seq<Scope>, sb: Select, sc: Select,
                         gb: seq<Row>, gc: seq<Row>, a: seq<Pair>, hb: seq<Row>, hc: seq<Row>, b: seq<Pair>)
    requires NoHoles(sb.dims) && NoHoles(sc.dims) && |sb.dims| == |sc.dims| == 1 && LinearOrder(E)
    requires IsJoined(E, rb, rc, sb, sc, gb, gc, a) && IsJoined(E, rb, rc, sb, sc, hb, hc, b)
    ensures a == b
  {
    AnswersAgree(E, rb, rc, sb, sc, gb, gc, a, hb, hc, b);
    AnswersAgree(E, rb, rc, sb, sc, hb, hc, b, gb, gc, a);
    SegmentRanks(E, rb, rc, sb, sc, gb, gc, a);
    SegmentRanks(E, rb, rc, sb, sc, hb, hc, b);
    OneArrangement(E, [Desc, Asc], PairRank(E), a, b);
  }

  lemma AnswersAgree(E: Engine, rb: seq<Scope>, rc: seq<Scope>, sb: Select, sc: Select,
                     gb: seq<Row>, gc: seq<Row>, a: seq<Pair>, hb: seq<Row>, hc: seq<Row>, b: seq<Pair>)
    requires NoHoles(sb.dims) && NoHoles(sc.dims)
    requires IsGrouping(E, rb, sb.dims, sb.measures, gb) && IsGrouping(E, rc, sc.dims, sc.measures, gc)
    requires IsGrouping(E, rb, sb.dims, sb.measures, hb) && IsGrouping(E, rc, sc.dims, sc.measures, hc)
    requires multiset(a) == multiset(OuterJoin(gb, gc)) && multiset(b) == multiset(OuterJoin(hb, hc))
    ensures forall p :: p in a ==> p in b
  {
    AnswerIsJoin(gb, gc, a);
    AnswerIsJoin(hb, hc, b);
    forall p | p in a
      ensures p in b
    {
      SameRowAt(E, rb, sb.dims, sb.measures, gb, hb, KeyOfPair(p));
      SameRowAt(E, rc, sc.dims, sc.measures, gc, hc, KeyOfPair(p));
    }
  }

  lemma SameRowAt(E: Engine, rows: seq<Scope>, dims: seq<Expr>, measures: seq<Measure>, g: seq<Row>, h: seq<Row>, key: seq<Value>)
    requires NoHoles(dims) && IsGrouping(E, rows, dims, measures, g) && IsGrouping(E, rows, dims, measures, h)
    ensures RowAt(g, key) == RowAt(h, key) && Appears(g, key) == Appears(h, key)
  {
    if RowAt(g, key).Some? {
      assert RowAt(g, key).value in g && RowAt(h, key).value in h;
    }
  }

  lemma SegmentRanks(E: Engine, rb: seq<Scope>, rc: seq<Scope>, sb: Select, sc: Select, gb: seq<Row>, gc: seq<Row>, a: seq<Pair>)
    requires NoHoles(sb.dims) && NoHoles(sc.dims) && |sb.dims| == |sc.dims| == 1
    requires IsGrouping(E, rb, sb.dims, sb.measures, gb) && IsGrouping(E, rc, sc.dims, sc.measures, gc)
    requires multiset(a) == multiset(OuterJoin(gb, gc))
    ensures Distinguishes(PairRank(E), a)
  {
    GroupKeyLength(E, rb, sb.dims, sb.measures, gb);
    GroupKeyLength(E, rc, sc.dims, sc.measures, gc);
    AnswerIsJoin(gb, gc, a);
    forall i, j | 0 <= i < j < |a|
      ensures PairRank(E)(a[i]) != PairRank(E)(a[j])
    {
      var x, y := KeyOfPair(a[i]), KeyOfPair(a[j]);
      assert a[i] in a && a[j] in a;
      assert |x| == 1 && |y| == 1;
      assert x == [x[0]] && y == [y[0]];
      assert PairRank(E)(a[i])[1] == x[0] && PairRank(E)(a[j])[1] == y[0];
    }
  }

  /** What a segment adds to the sort key for one side: its first measure there, or zero where there is none. */
  function FirstMeasure(E: Engine, db: Database, dim: Dimension, m: Measure, f: TaxiFilters, v: Value): Value {
    var own := Alone(E, db, [dim], f);
    var x := Measured(E, m, TripsOf(WithValues(E, own, [dim], [v])), |own|);
    if Occurs(E, own, [dim], [v]) && !x.Null? then x else Num(0.0)
  }

  function CombinedMeasure(E: Engine, db: Database, dim: Dimension, m: Measure, fb: TaxiFilters, fc: TaxiFilters, v: Value): Value {
    E.plus(FirstMeasure(E, db, dim, m, fb, v), FirstMeasure(E, db, dim, m, fc, v))
  }

  lemma FirstCell(E: Engine, db: Database, dim: Dimension, measures: seq<Measure>, f: TaxiFilters, v: Value)
    requires measures != []
    ensures OrZero(AloneAt(E, db, dim, measures, f, [v])) == FirstMeasure(E, db, dim, measures[0], f, v)
  {
  }

  lemma RankMeans(E: Engine, db: Database, dim: Dimension, measures: seq<Measure>, fb: TaxiFilters, fc: TaxiFilters,
                  q: Query, ps: seq<Value>, gb: seq<Row>, gc: seq<Row>, all: seq<Pair>, i: nat)
    requires CompilesSegments(dim, measures, fb, fc, q, ps) && IsCompared(E, db, q, ps, gb, gc, all)
    requires Harmless(E, db, [dim], fb, q.b.join) && Harmless(E, db, [dim], fc, q.c.join)
    requires measures != [] && i < |all|
    ensures |KeyOfPair(all[i])| == 1
    ensures var v := KeyOfPair(all[i])[0]; PairRank(E)(all[i]) == [CombinedMeasure(E, db, dim, measures[0], fb, fc, v), v]
  {
    var key := KeyOfPair(all[i]);
    SegmentsAreComplete(E, db, dim, measures, fb, fc, q, ps, gb, gc, all, key);
    assert |key| == 1;
    assert key == [key[0]];
    FirstCell(E, db, dim, measures, fb, key[0]);
    FirstCell(E, db, dim, measures, fc, key[0]);
  }

  /**
   * The segments come in descending order of the first measure of both sides added up, zero counting for a side without
   * the segment; segments that agree in it come in ascending order of their value.
   */
  lemma SegmentsAreSorted(E: Engine, db: Database, dim: Dimension, measures: seq<Measure>, fb: TaxiFilters, fc: TaxiFilters,
                          q: Query, ps: seq<Value>, gb: seq<Row>, gc: seq<Row>, all: seq<Pair>, i: nat, j: nat)
    requires CompilesSegments(dim, measures, fb, fc, q, ps) && IsCompared(E, db, q, ps, gb, gc, all)
    requires Harmless(E, db, [dim], fb, q.b.join) && Harmless(E, db, [dim], fc, q.c.join)
    requires LinearOrder(E) && measures != [] && i < j < |all|
    ensures |KeyOfPair(all[i])| == |KeyOfPair(all[j])| == 1
    ensures var v, w := KeyOfPair(all[i])[0], KeyOfPair(all[j])[0];
            var x, y := CombinedMeasure(E, db, dim, measures[0], fb, fc, v), CombinedMeasure(E, db, dim, measures[0], fb, fc, w);
            E.before(Desc, x, y) || (x == y && E.before(Asc, v, w))
  {
    RankMeans(E, db, dim, measures, fb, fc, q, ps, gb, gc, all, i);
    RankMeans(E, db, dim, measures, fb, fc, q, ps, gb, gc, all, j);
    SegmentsAreComplete(E, db, dim, measures, fb, fc, q, ps, gb, gc, all, []);
    var x, y := PairRank(E)(all[i]), PairRank(E)(all[j]);
    assert KeyOfPair(all[i]) == [x[1]] && KeyOfPair(all[j]) == [y[1]];
    LexOfTwo(E, y, x);
  }

  lemma LexOfTwo(E: Engine, x: seq<Value>, y: seq<Value>)
    requires |x| == |y| == 2
    ensures Lex(E, [Desc, Asc], x, y) <==> if x[0] == y[0] then x[1] != y[1] && E.before(Asc, x[1], y[1]) else E.before(Desc, x[0], y[0])
  {
    assert [Desc, Asc][1..] == [Asc] && [Asc][1..] == [];
    assert Lex(E, [Asc], x[1..], y[1..]) <==> x[1] != y[1] && E.before(Asc, x[1], y[1]);
  }

  lemma ComparedAnswerExists(E: Engine, db: Database, q: Query, ps: seq<Value>)
    requires LinearOrder(E) && q.Compared? && |ps| == QueryHoles(q) && NoHoles(q.b.dims) && NoHoles(q.c.dims)
    ensures exists gb, gc, all :: IsCompared(E, db, q, ps, gb, gc, all)
  {
    var gb := SomeGrouping(E, Source(E, db, q.b, FirstArgs(q, ps)), q.b.dims, q.b.measures);
    var gc := SomeGrouping(E, Source(E, db, q.c, SecondArgs(q, ps)), q.c.dims, q.c.measures);
    var all := SomeArrangement(E, [Desc, Asc], PairRank(E), OuterJoin(gb, gc));
    assert IsCompared(E, db, q, ps, gb, gc, all);
  }

  // ---- Comparing whole populations ----

  ghost predicate CompilesWhole(measures: seq<Measure>, fb: TaxiFilters, fc: TaxiFilters, q: Query, ps: seq<Value>) {
    && q.Crossed? && |ps| == QueryHoles(q)
    && Faithful(fb, q.b.clauses, FirstArgs(q, ps)) && Faithful(fc, q.c.clauses, SecondArgs(q, ps))
    && q.b.dims == q.c.dims == [] && q.b.measures == q.c.measures == [TripCount] + measures
    && q.b.join == q.c.join == (fb.UsesZoneJoin() || fc.UsesZoneJoin())
  }

  /** `compile_compare_whole_segments_query`; the first measure of a side is its population. */
  method CompileWhole(measures: seq<Measure>, fb: TaxiFilters, fc: TaxiFilters) returns (q: Query, ps: seq<Value>)
    ensures CompilesWhole(measures, fb, fc, q, ps)
    ensures (UsesZones(Conj(q.b.clauses)) || UsesZones(Conj(q.c.clauses))) <==> q.b.join
  {
    var join := RequiresZoneJoin([], Some(fb)) || RequiresZoneJoin([], Some(fc));
    var bs, bp := CompileFilters(Some(fb));
    var cs, cp := CompileFilters(Some(fc));
    q := Crossed(Select([], [TripCount] + measures, join, bs), Select([], [TripCount] + measures, join, cs));
    ps := bp + cp;
    assert FirstArgs(q, ps) == bp && SecondArgs(q, ps) == cp;
  }

  /** One row for each side: its own population and its own measures, even when nothing is selected. */
  lemma WholeIsEachAlone(E: Engine, db: Database, measures: seq<Measure>, fb: TaxiFilters, fc: TaxiFilters,
                         q: Query, ps: seq<Value>, gb: seq<Row>, gc: seq<Row>)
    requires CompilesWhole(measures, fb, fc, q, ps)
    requires Harmless(E, db, [], fb, q.b.join) && Harmless(E, db, [], fc, q.c.join)
    requires IsGrouping(E, Source(E, db, q.b, FirstArgs(q, ps)), [], q.b.measures, gb)
    requires IsGrouping(E, Source(E, db, q.c, SecondArgs(q, ps)), [], q.c.measures, gc)
    ensures gb == [Tally(E, Alone(E, db, [], fb), [], [TripCount] + measures, [])]
    ensures gc == [Tally(E, Alone(E, db, [], fc), [], [TripCount] + measures, [])]
    ensures gb[0].cells[0] == Num(|Alone(E, db, [], fb)| as real) && gc[0].cells[0] == Num(|Alone(E, db, [], fc)| as real)
  {
    WholeSide(E, db, measures, fb, q.b, FirstArgs(q, ps), gb);
    WholeSide(E, db, measures, fc, q.c, SecondArgs(q, ps), gc);
  }

  lemma WholeSide(E: Engine, db: Database, measures: seq<Measure>, f: TaxiFilters, q: Select, args: seq<Value>, g: seq<Row>)
    requires Harmless(E, db, [], f, q.join)
    requires Faithful(f, q.clauses, args) && q.dims == [] && q.measures == [TripCount] + measures
    requires f.UsesZoneJoin() ==> q.join
    requires IsGrouping(E, Source(E, db, q, args), [], q.measures, g)
    ensures g == [Tally(E, Alone(E, db, [], f), [], [TripCount] + measures, [])]
    ensures g[0].cells[0] == Num(|Alone(E, db, [], f)| as real)
  {
    SourceIsWanted(E, db, f, q, args);
    SideIsAlone(E, db, [], [], q.measures, f, q.join, []);
    assert Appears(g, []);
    GroupKeyLength(E, Source(E, db, q, args), [], q.measures, g);
    assert forall i :: 0 <= i < |g| ==> g[i].key == [];
    if |g| >= 2 {
      FirstTwoDiffer(g);
    }
    Single(g);
    var own := Alone(E, db, [], f);
    AllInGroup(E, own);
  }

  lemma FirstTwoDiffer(rows: seq<Row>)
    requires OneRowPerKey(rows) && |rows| >= 2
    ensures rows[0].key != rows[1].key
  {
  }

  lemma Single<T>(q: seq<T>)
    requires |q| == 1
    ensures q == [q[0]]
  {
  }

  lemma AllInGroup(E: Engine, rows: seq<Scope>)
    ensures |WithValues(E, rows, [], [])| == |rows|
  {
    FilterAll(rows, (s: Scope) => Values(E, [], s) == []);
  }
}
