/**
 * The capture sink (services/app/app/capture/sink.py): processes append records to one shared JSONL
 * file under a lock, each with its own incremental index of the keys seen so far.
 *
 * A missing file is the empty file. Bytes are characters.
 */
module CaptureSink {
  import opened Basics

  type Key = (string, string)

  /** What reading one line does: a key, a skipped ValueError, or any other exception. */
  datatype Parsed = IsKey(key: Key) | Skip | Raise

  /** json.loads + dedupe_key, json.dumps (None: not serialisable) and dedupe_key. */
  datatype Codec<!R> = Codec(parse: string -> Parsed, encode: R -> Option<string>, keyOf: R -> Key)

  /** A record is written on one line and read back with its key. */
  ghost predicate Sound<R(!new)>(c: Codec<R>) {
    forall r :: c.encode(r).Some? ==> OneLine(c.encode(r).value) && c.parse(c.encode(r).value) == IsKey(c.keyOf(r))
  }

  // ---- Lines ----

  predicate IsBreak(ch: char) {
    ch == '\n' || ch == '\r'
  }

  predicate OneLine(s: string) {
    forall i :: 0 <= i < |s| ==> !IsBreak(s[i])
  }

  function LineEnd(s: string): (i: nat)
    ensures i <= |s| && OneLine(s[..i]) && (i < |s| ==> IsBreak(s[i]))
  {
    if s == "" || IsBreak(s[0]) then 0
    else
      assert s[..1 + LineEnd(s[1..])] == [s[0]] + s[1..][..LineEnd(s[1..])];
      1 + LineEnd(s[1..])
  }

  /** Length of the line break at the start of `s`. */
  function BreakLength(s: string): (n: nat)
    ensures n <= |s| && (s != "" ==> n > 0)
  {
    if s == "" then 0 else if s[0] == '\r' && |s| > 1 && s[1] == '\n' then 2 else 1
  }

  /** Where the line after the first one starts. */
  function NextLine(s: string): (n: nat)
    ensures LineEnd(s) <= n <= |s| && (LineEnd(s) < |s| ==> LineEnd(s) < n)
  {
    LineEnd(s) + BreakLength(s[LineEnd(s)..])
  }

  /** bytes.splitlines: \n, \r and \r\n end a line. */
  function SplitLines(s: string): (lines: seq<string>)
    decreases |s|
  {
    if s == "" then []
    else if LineEnd(s) == |s| then [s]
    else [s[..LineEnd(s)]] + SplitLines(s[NextLine(s)..])
  }

  /** Position after the last newline. */
  function CompleteEnd(s: string): (n: nat)
    ensures n <= |s| && Clean(s[..n]) && (Clean(s) ==> n == |s|)
    ensures forall i :: n <= i < |s| ==> s[i] != '\n'
  {
    if s == "" then 0
    else if s[|s| - 1] == '\n' then assert s[..|s|] == s; |s|
    else
      var front := s[..|s| - 1];
      assert forall n :: 0 <= n < |s| ==> front[..n] == s[..n];
      CompleteEnd(front)
  }

  /** Empty, or ending in a newline: no half-written line. */
  predicate Clean(s: string) {
    s == "" || s[|s| - 1] == '\n'
  }

  lemma {:induction false} LineEndIs(s: string, i: nat)
    requires i <= |s| && OneLine(s[..i]) && (i < |s| ==> IsBreak(s[i]))
    ensures LineEnd(s) == i
  {
    var j := LineEnd(s);
    assert forall k :: 0 <= k < i ==> s[..i][k] == s[k];
    assert forall k :: 0 <= k < j ==> s[..j][k] == s[k];
  }

  /** Lines split independently on either side of a newline. */
  lemma {:induction false} SplitConcat(a: string, b: string)
    requires Clean(a)
    ensures SplitLines(a + b) == SplitLines(a) + SplitLines(b)
    decreases |a|
  {
    if a == "" {
      assert a + b == b;
    } else {
      var i, n := LineEnd(a), NextLine(a);
      HeadOfConcat(a, b);
      SplitConcat(a[n..], b);
      Reassociate([a[..i]], SplitLines(a[n..]), SplitLines(b));
      SplitHead(a, i, n);
      SplitHead(a + b, i, n);
    }
  }

  lemma SplitHead(s: string, i: nat, n: nat)
    requires i == LineEnd(s) < |s| && n == NextLine(s)
    ensures SplitLines(s) == [s[..i]] + SplitLines(s[n..])
  {
  }

  lemma HeadOfConcat(a: string, b: string)
    requires Clean(a) && a != ""
    ensures LineEnd(a) < |a| && Clean(a[NextLine(a)..])
    ensures LineEnd(a + b) == LineEnd(a) && NextLine(a + b) == NextLine(a)
    ensures (a + b)[..LineEnd(a)] == a[..LineEnd(a)] && (a + b)[NextLine(a)..] == a[NextLine(a)..] + b
  {
    var i := LineEnd(a);
    assert IsBreak(a[|a| - 1]) && a[..|a|] == a;
    assert (a + b)[..i] == a[..i];
    LineEndIs(a + b, i);
    assert (a + b)[i..] == a[i..] + b;
    DropFromConcat(a, b, NextLine(a));
  }

  lemma DropFromConcat(a: string, b: string, n: nat)
    requires n <= |a|
    ensures (a + b)[n..] == a[n..] + b
  {
  }

  function Rejoin(lines: seq<string>, ends: seq<string>): string
    requires |lines| == |ends|
  {
    if lines == [] then "" else lines[0] + (ends[0] + Rejoin(lines[1..], ends[1..]))
  }

  /** Only the last line may be without a line break, and then it is not empty. */
  predicate EndsWell(lines: seq<string>, ends: seq<string>, i: nat)
    requires i < |lines| == |ends|
  {
    && OneLine(lines[i]) && ends[i] in {"\n", "\r", "\r\n", ""}
    && (ends[i] == "" ==> lines[i] != "" && i == |lines| - 1)
    && (ends[i] == "\r" && i < |lines| - 1 ==> lines[i + 1] != "" || ends[i + 1] == "" || ends[i + 1][0] != '\n')
  }

  /** The lines hold no line break, and put together with their line breaks they are the text; \r\n is one break. */
  predicate IsCut(s: string, lines: seq<string>, ends: seq<string>) {
    && |lines| == |ends| && Rejoin(lines, ends) == s
    && forall i: nat :: i < |lines| ==> EndsWell(lines, ends, i)
  }

  lemma {:induction false} CutsOneMore(line: string, end: string, s: string, lines: seq<string>, ends: seq<string>)
    requires OneLine(line) && end in {"\n", "\r", "\r\n"} && IsCut(s, lines, ends)
    requires end == "\r" && s != "" ==> s[0] != '\n'
    ensures IsCut(line + (end + s), [line] + lines, [end] + ends)
  {
    var ls, es := [line] + lines, [end] + ends;
    assert ls[1..] == lines && es[1..] == ends;
    forall i: nat | i < |ls|
      ensures EndsWell(ls, es, i)
    {
      if i > 0 {
        assert EndsWell(lines, ends, i - 1);
      } else if end == "\r" && lines != [] && lines[0] == "" && ends[0] != "" {
        assert s == ends[0] + Rejoin(lines[1..], ends[1..]);
      }
    }
  }

  lemma BreakAt(s: string)
    requires s != "" && IsBreak(s[0])
    ensures var n := BreakLength(s);
            0 < n <= |s| && s[..n] in {"\n", "\r", "\r\n"} && (s[..n] == "\r" && n < |s| ==> s[n] != '\n')
  {
    if BreakLength(s) == 2 {
      assert s[..2] == [s[0], s[1]] == "\r\n";
    } else {
      assert s[..1] == [s[0]];
    }
  }

  lemma {:induction false} BreakIs(s: string, i: nat, n: nat)
    requires i == LineEnd(s) < |s| && n == NextLine(s)
    ensures i < n <= |s| && OneLine(s[..i]) && s[i..n] in {"\n", "\r", "\r\n"}
    ensures s[i..n] == "\r" && n < |s| ==> s[n] != '\n'
    ensures s == s[..i] + (s[i..n] + s[n..])
  {
    var rest := s[i..];
    assert rest[0] == s[i];
    BreakAt(rest);
    assert s[i..n] == rest[..n - i];
    assert n < |s| ==> s[n] == rest[n - i];
  }

  lemma {:induction false} LastCut(s: string)
    requires s != "" && LineEnd(s) == |s|
    ensures IsCut(s, [s], [""])
  {
    assert s[..|s|] == s;
    assert [s][1..] == [] && [""][1..] == [];
    assert Rejoin([s], [""]) == s + ("" + "") == s;
  }

  lemma {:induction false} Cuts(s: string) returns (ends: seq<string>)
    ensures IsCut(s, SplitLines(s), ends)
    decreases |s|
  {
    if s == "" {
      ends := [];
    } else if LineEnd(s) == |s| {
      ends := [""];
      LastCut(s);
    } else {
      var i, n := LineEnd(s), NextLine(s);
      BreakIs(s, i, n);
      var more := Cuts(s[n..]);
      ends := [s[i..n]] + more;
      CutsOneMore(s[..i], s[i..n], s[n..], SplitLines(s[n..]), more);
      SplitHead(s, i, n);
    }
  }

  /** Every text is cut exactly at its line breaks. */
  lemma SplitCuts(s: string)
    ensures exists ends :: IsCut(s, SplitLines(s), ends)
  {
    var ends := Cuts(s);
  }

  lemma SplitOne(line: string)
    requires OneLine(line)
    ensures SplitLines(line + "\n") == [line] && Clean(line + "\n")
  {
    var s := line + "\n";
    assert s[..|line|] == line;
    LineEndIs(s, |line|);
    assert s[|line|..] == "\n";
    assert s[|line| + 1..] == "";
  }

  // ---- Keys of a file ----

  function KeysOf<R(!new)>(c: Codec<R>, lines: seq<string>): set<Key> {
    set i | 0 <= i < |lines| && c.parse(lines[i]).IsKey? :: c.parse(lines[i]).key
  }

  /** The keys a full re-read of the file finds. */
  function FileKeys<R(!new)>(c: Codec<R>, file: string): set<Key> {
    KeysOf(c, SplitLines(file))
  }

  function RecordsOf<R(!new)>(c: Codec<R>, file: string, k: Key): nat {
    Count(SplitLines(file), (line: string) => c.parse(line) == IsKey(k))
  }

  predicate Raises<R(!new)>(c: Codec<R>, lines: seq<string>) {
    exists i :: 0 <= i < |lines| && c.parse(lines[i]).Raise?
  }

  lemma KeysConcat<R(!new)>(c: Codec<R>, a: seq<string>, b: seq<string>)
    ensures KeysOf(c, a + b) == KeysOf(c, a) + KeysOf(c, b)
    ensures Raises(c, a + b) <==> Raises(c, a) || Raises(c, b)
  {
    var s := a + b;
    forall k | k in KeysOf(c, a) + KeysOf(c, b)
      ensures k in KeysOf(c, s)
    {
      if k in KeysOf(c, a) {
        var i :| 0 <= i < |a| && c.parse(a[i]).IsKey? && c.parse(a[i]).key == k;
        assert s[i] == a[i];
      } else {
        var i :| 0 <= i < |b| && c.parse(b[i]).IsKey? && c.parse(b[i]).key == k;
        assert s[|a| + i] == b[i];
      }
    }
    if Raises(c, a) {
      var i :| 0 <= i < |a| && c.parse(a[i]).Raise?;
      assert s[i] == a[i];
    }
    if Raises(c, b) {
      var i :| 0 <= i < |b| && c.parse(b[i]).Raise?;
      assert s[|a| + i] == b[i];
    }
  }

  lemma {:induction false} CountPositive<R(!new)>(c: Codec<R>, lines: seq<string>, k: Key)
    ensures k in KeysOf(c, lines) <==> Count(lines, (line: string) => c.parse(line) == IsKey(k)) > 0
  {
    if lines == [] {
    } else {
      var front, last := lines[..|lines| - 1], lines[|lines| - 1];
      CountPositive(c, front, k);
      assert lines == front + [last];
      KeysConcat(c, front, [last]);
      assert c.parse(last) == IsKey(k) ==> [last][0] == last;
    }
  }

  // ---- One sink ----

  datatype State = State(seen: set<Key>, offset: nat, dropped: nat)

  const New: State := State({}, 0, 0)

  datatype Absorbed = Absorbed(seen: set<Key>, ok: bool)

  /** The reading loop: it stops at the first line that raises anything but a ValueError. */
  function Absorb<R>(c: Codec<R>, lines: seq<string>, seen: set<Key>): Absorbed {
    if lines == [] then Absorbed(seen, true)
    else
      match c.parse(lines[0])
      case IsKey(k) => Absorb(c, lines[1..], seen + {k})
      case Skip => Absorb(c, lines[1..], seen)
      case Raise => Absorbed(seen, false)
  }

  lemma {:induction false} AbsorbIs<R(!new)>(c: Codec<R>, lines: seq<string>, seen: set<Key>)
    ensures var a := Absorb(c, lines, seen);
            && (a.ok <==> !Raises(c, lines))
            && seen <= a.seen <= seen + KeysOf(c, lines) && (a.ok ==> a.seen == seen + KeysOf(c, lines))
    decreases |lines|
  {
    if lines == [] {
    } else {
      var rest := lines[1..];
      assert lines == [lines[0]] + rest;
      KeysConcat(c, [lines[0]], rest);
      OneKey(c, lines[0]);
      match c.parse(lines[0])
      case IsKey(k) => AbsorbIs(c, rest, seen + {k});
      case Skip => AbsorbIs(c, rest, seen);
      case Raise =>
    }
  }

  lemma OneKey<R(!new)>(c: Codec<R>, line: string)
    ensures KeysOf(c, [line]) == if c.parse(line).IsKey? then {c.parse(line).key} else {}
    ensures Raises(c, [line]) <==> c.parse(line).Raise?
  {
    assert [line][0] == line;
    assert c.parse(line).IsKey? ==> c.parse([line][0]).key in KeysOf(c, [line]);
  }

  datatype Refreshed = Refreshed(state: State, ok: bool)

  /** `_refresh_seen`. */
  function Refresh<R>(c: Codec<R>, file: string, s: State): Refreshed
    requires s.offset <= |file|
  {
    var data := file[s.offset..];
    var end := CompleteEnd(data);
    var a := Absorb(c, SplitLines(data[..end]), s.seen);
    Refreshed(State(a.seen, if a.ok then s.offset + end else s.offset, s.dropped), a.ok)
  }

  /** Where the environment makes a write fail: before the file is read, or when it is opened to append. */
  datatype Fault = NoFault | EarlyFault | LateFault

  datatype Answer = Written | Duplicate | Dropped

  datatype Outcome = Outcome(file: string, state: State, answer: Answer)

  function Drop(file: string, s: State): Outcome {
    Outcome(file, s.(dropped := s.dropped + 1), Dropped)
  }

  /** `write`, under the lock. */
  function WriteStep<R>(c: Codec<R>, file: string, s: State, r: R, fault: Fault): Outcome
    requires s.offset <= |file|
  {
    if fault == EarlyFault then Drop(file, s)
    else
      var f := Refresh(c, file, s);
      if !f.ok then Drop(file, f.state)
      else if c.keyOf(r) in f.state.seen then Outcome(file, f.state, Duplicate)
      else if c.encode(r).None? || fault == LateFault then Drop(file, f.state)
      else Outcome(file + (c.encode(r).value + "\n"), f.state.(seen := f.state.seen + {c.keyOf(r)}), Written)
  }

  // ---- Every run ----

  /** The index knows everything before its offset and nothing that is not in the file. */
  predicate Agrees<R(!new)>(c: Codec<R>, file: string, s: State) {
    && s.offset <= |file| && Clean(file[..s.offset]) && !Raises(c, SplitLines(file[..s.offset]))
    && FileKeys(c, file[..s.offset]) <= s.seen <= FileKeys(c, file)
  }

  /** The part of the file a sink has read and the rest. */
  lemma FileSplits<R(!new)>(c: Codec<R>, file: string, n: nat)
    requires Clean(file) && n <= |file| && Clean(file[..n])
    ensures Clean(file[n..]) && CompleteEnd(file[n..]) == |file| - n
    ensures FileKeys(c, file) == FileKeys(c, file[..n]) + FileKeys(c, file[n..])
    ensures Raises(c, SplitLines(file)) <==> Raises(c, SplitLines(file[..n])) || Raises(c, SplitLines(file[n..]))
  {
    var before, data := file[..n], file[n..];
    assert file == before + data;
    CleanTail(file, n);
    SplitConcat(before, data);
    KeysConcat(c, SplitLines(before), SplitLines(data));
  }

  /** `f` is a full re-read of the file, or reading failed and the old index still agrees. */
  predicate IsReread<R(!new)>(c: Codec<R>, file: string, s: State, f: Refreshed) {
    && (f.ok <==> !Raises(c, SplitLines(file)))
    && (f.ok ==> f.state.seen == FileKeys(c, file))
    && Agrees(c, file, f.state) && f.state.dropped == s.dropped
  }

  /** A refreshed index holds exactly the keys of a full re-read, or a line made reading fail. */
  lemma RefreshIsReread<R(!new)>(c: Codec<R>, file: string, s: State)
    requires Clean(file) && Agrees(c, file, s)
    ensures IsReread(c, file, s, Refresh(c, file, s))
  {
    var data := file[s.offset..];
    var a := Absorb(c, SplitLines(data), s.seen);
    FileSplits(c, file, s.offset);
    assert data[..|data|] == data;
    RefreshReads(c, file, s, data);
    AbsorbIs(c, SplitLines(data), s.seen);
    if a.ok {
      Sandwich(FileKeys(c, file[..s.offset]), FileKeys(c, data), s.seen);
      RereadSucceeds(c, file, s, Refresh(c, file, s));
    } else {
      RereadFails(c, file, s, a.seen, Refresh(c, file, s));
    }
  }

  lemma RereadSucceeds<R(!new)>(c: Codec<R>, file: string, s: State, f: Refreshed)
    requires Clean(file) && !Raises(c, SplitLines(file))
    requires f == Refreshed(State(FileKeys(c, file), |file|, s.dropped), true)
    ensures IsReread(c, file, s, f)
  {
    UpToDateAgrees(c, file, s.dropped);
  }

  lemma RereadFails<R(!new)>(c: Codec<R>, file: string, s: State, seen: set<Key>, f: Refreshed)
    requires Agrees(c, file, s) && Raises(c, SplitLines(file)) && s.seen <= seen <= FileKeys(c, file)
    requires f == Refreshed(State(seen, s.offset, s.dropped), false)
    ensures IsReread(c, file, s, f)
  {
    StillAgrees(c, file, s, seen);
  }

  lemma Sandwich(before: set<Key>, after: set<Key>, seen: set<Key>)
    requires before <= seen <= before + after
    ensures seen + after == before + after
  {
  }

  lemma StillAgrees<R(!new)>(c: Codec<R>, file: string, s: State, seen: set<Key>)
    requires Agrees(c, file, s) && s.seen <= seen <= FileKeys(c, file)
    ensures Agrees(c, file, State(seen, s.offset, s.dropped))
  {
  }

  lemma UpToDateAgrees<R(!new)>(c: Codec<R>, file: string, dropped: nat)
    requires Clean(file) && !Raises(c, SplitLines(file))
    ensures Agrees(c, file, State(FileKeys(c, file), |file|, dropped))
  {
    assert file[..|file|] == file;
  }

  /** What a refresh does with the complete lines it finds. */
  lemma RefreshReads<R(!new)>(c: Codec<R>, file: string, s: State, read: string)
    requires s.offset <= |file| && CompleteEnd(file[s.offset..]) == |read| && file[s.offset..][..|read|] == read
    ensures var a := Absorb(c, SplitLines(read), s.seen);
            Refresh(c, file, s) == Refreshed(State(a.seen, if a.ok then s.offset + |read| else s.offset, s.dropped), a.ok)
  {
  }

  /** and a new sink's first refresh is that full re-read. */
  lemma SameAsNew<R(!new)>(c: Codec<R>, file: string, s: State)
    requires Clean(file) && Agrees(c, file, s) && Refresh(c, file, s).ok
    ensures Refresh(c, file, New).ok && Refresh(c, file, New).state.seen == Refresh(c, file, s).state.seen
  {
    RefreshIsReread(c, file, s);
    NewAgrees(c, file);
    RefreshIsReread(c, file, New);
  }

  lemma CleanTail(s: string, n: nat)
    requires Clean(s) && n <= |s|
    ensures Clean(s[n..])
  {
  }

  /** Appending a record adds its key, once, and disturbs no other line. */
  lemma AppendAdds<R(!new)>(c: Codec<R>, file: string, line: string, k: Key)
    requires Clean(file) && OneLine(line) && c.parse(line) == IsKey(k)
    ensures var file' := file + (line + "\n");
            && Clean(file') && SplitLines(file') == SplitLines(file) + [line]
            && FileKeys(c, file') == FileKeys(c, file) + {k}
            && (Raises(c, SplitLines(file')) <==> Raises(c, SplitLines(file)))
  {
    SplitConcat(file, line + "\n");
    SplitOne(line);
    KeysConcat(c, SplitLines(file), [line]);
    OneKey(c, line);
  }

  /**
   * One locked write. Without a fault or an unreadable line it answers Duplicate exactly when the key is in the
   * file, and otherwise adds the record as one more line.
   */
  lemma WriteIsExact<R(!new)>(c: Codec<R>, file: string, s: State, r: R, fault: Fault, o: Outcome)
    requires Sound(c) && Clean(file) && Agrees(c, file, s) && o == WriteStep(c, file, s, r, fault)
    ensures Clean(o.file) && Agrees(c, o.file, o.state)
    ensures o.answer == Duplicate ==> c.keyOf(r) in FileKeys(c, file)
    ensures o.answer == Written ==> c.keyOf(r) !in FileKeys(c, file)
                                    && c.encode(r).Some? && SplitLines(o.file) == SplitLines(file) + [c.encode(r).value]
    ensures o.answer != Written ==> o.file == file
    ensures o.state.dropped == s.dropped + (if o.answer == Dropped then 1 else 0)
    ensures fault == NoFault ==>
              (o.answer == Dropped <==>
               Raises(c, SplitLines(file)) || (c.encode(r).None? && c.keyOf(r) !in FileKeys(c, file)))
    ensures Raises(c, SplitLines(file)) ==> o.answer == Dropped
  {
    RefreshIsReread(c, file, s);
    if o.answer == Written {
      var line := c.encode(r).value;
      AppendAdds(c, file, line, c.keyOf(r));
      AgreesLater(c, file, line + "\n", Refresh(c, file, s).state);
    }
  }

  /** Other sinks stay in agreement when the file grows. */
  lemma AgreesLater<R(!new)>(c: Codec<R>, file: string, more: string, s: State)
    requires Clean(file) && Agrees(c, file, s)
    ensures Agrees(c, file + more, s)
  {
    assert (file + more)[..s.offset] == file[..s.offset];
    SplitConcat(file, more);
    KeysConcat(c, SplitLines(file), SplitLines(more));
  }

  datatype World = World(file: string, sinks: seq<State>)

  datatype Event<!R> =
    | Start                                     // a process opens its own sink
    | Submit(sink: nat, record: R, fault: Fault)

  /** One locked step; an event for a sink that does not exist changes nothing. */
  function Step<R(!new)>(c: Codec<R>, w: World, e: Event<R>): World
    requires forall i :: 0 <= i < |w.sinks| ==> w.sinks[i].offset <= |w.file|
  {
    match e
    case Start => World(w.file, w.sinks + [New])
    case Submit(i, r, fault) =>
      if i < |w.sinks| then
        var o := WriteStep(c, w.file, w.sinks[i], r, fault);
        World(o.file, w.sinks[i := o.state])
      else w
  }

  ghost predicate Inv<R(!new)>(c: Codec<R>, first: string, w: World) {
    && Clean(w.file) && (forall i :: 0 <= i < |w.sinks| ==> Agrees(c, w.file, w.sinks[i]))
    && (forall k :: RecordsOf(c, w.file, k) <= Max(1, RecordsOf(c, first, k)))
    && (Raises(c, SplitLines(first)) ==> w.file == first)
  }

  lemma StepKeepsInv<R(!new)>(c: Codec<R>, first: string, w: World, e: Event<R>, w': World)
    requires Sound(c) && Inv(c, first, w) && w' == Step(c, w, e)
    ensures Inv(c, first, w')
  {
    if e.Submit? && e.sink < |w.sinks| {
      SubmitKeepsInv(c, first, w, e.sink, e.record, e.fault, WriteStep(c, w.file, w.sinks[e.sink], e.record, e.fault));
    } else if e.Start? {
      NewAgrees(c, w.file);
    }
  }

  lemma SubmitKeepsInv<R(!new)>(c: Codec<R>, first: string, w: World, i: nat, r: R, fault: Fault, o: Outcome)
    requires Sound(c) && Inv(c, first, w) && i < |w.sinks| && o == WriteStep(c, w.file, w.sinks[i], r, fault)
    ensures Inv(c, first, World(o.file, w.sinks[i := o.state]))
  {
    WriteIsExact(c, w.file, w.sinks[i], r, fault, o);
    if o.answer == Written {
      WrittenKeepsInv(c, first, w, r, i, o);
    } else {
      UnwrittenKeepsInv(c, first, w, i, o.state);
    }
  }

  lemma UnwrittenKeepsInv<R(!new)>(c: Codec<R>, first: string, w: World, i: nat, s: State)
    requires Inv(c, first, w) && i < |w.sinks| && Agrees(c, w.file, s)
    ensures Inv(c, first, World(w.file, w.sinks[i := s]))
  {
  }

  lemma WrittenKeepsInv<R(!new)>(c: Codec<R>, first: string, w: World, r: R, i: nat, o: Outcome)
    requires Sound(c) && Inv(c, first, w) && i < |w.sinks| && c.encode(r).Some? && !Raises(c, SplitLines(w.file))
    requires Clean(o.file) && Agrees(c, o.file, o.state) && o.file == w.file + (c.encode(r).value + "\n")
    requires c.keyOf(r) !in FileKeys(c, w.file) && SplitLines(o.file) == SplitLines(w.file) + [c.encode(r).value]
    ensures Inv(c, first, World(o.file, w.sinks[i := o.state]))
  {
    var k0, line := c.keyOf(r), c.encode(r).value;
    forall j | 0 <= j < |w.sinks|
      ensures Agrees(c, o.file, w.sinks[j])
    {
      AgreesLater(c, w.file, line + "\n", w.sinks[j]);
    }
    forall k
      ensures RecordsOf(c, o.file, k) <= Max(1, RecordsOf(c, first, k))
    {
      assert RecordsOf(c, w.file, k) <= Max(1, RecordsOf(c, first, k));
      OneMore(c, w.file, o.file, line, k0, k);
    }
  }

  lemma NewAgrees<R(!new)>(c: Codec<R>, file: string)
    ensures Agrees(c, file, New)
  {
    assert file[..0] == "";
  }

  lemma OneMore<R(!new)>(c: Codec<R>, file: string, file': string, line: string, k0: Key, k: Key)
    requires SplitLines(file') == SplitLines(file) + [line] && c.parse(line) == IsKey(k0) && k0 !in FileKeys(c, file)
    ensures RecordsOf(c, file', k) == RecordsOf(c, file, k) + (if k == k0 then 1 else 0)
    ensures k == k0 ==> RecordsOf(c, file', k) == 1
  {
    var f := (l: string) => c.parse(l) == IsKey(k);
    CountConcat(SplitLines(file), [line], f);
    assert Count([line], f) == if f(line) then 1 else 0 by {
      assert [line][..0] == [];
    }
    CountPositive(c, SplitLines(file), k0);
  }

  ghost function Exec<R(!new)>(c: Codec<R>, first: string, w: World, run: seq<Event<R>>): World
    requires Sound(c) && Inv(c, first, w)
    decreases |run|
  {
    if run == [] then w
    else
      var w' := Step(c, w, run[0]);
      StepKeepsInv(c, first, w, run[0], w');
      Exec(c, first, w', run[1..])
  }

  lemma {:induction false} ExecKeepsInv<R(!new)>(c: Codec<R>, first: string, w: World, run: seq<Event<R>>)
    requires Sound(c) && Inv(c, first, w)
    ensures Inv(c, first, Exec(c, first, w, run))
    decreases |run|
  {
    if run == [] {
    } else {
      var w' := Step(c, w, run[0]);
      StepKeepsInv(c, first, w, run[0], w');
      ExecKeepsInv(c, first, w', run[1..]);
    }
  }

  lemma Begins<R(!new)>(c: Codec<R>, first: string)
    requires Clean(first)
    ensures Inv(c, first, World(first, []))
  {
  }

  /**
   * Whatever processes come and write in whatever order, no key gets a second record (beyond those the file had
   * to begin with), and refreshing any sink gives the keys of a full re-read. A file with a line that makes
   * reading raise is never written again.
   */
  lemma NoDuplicates<R(!new)>(c: Codec<R>, first: string, run: seq<Event<R>>)
    requires Sound(c) && Clean(first)
    ensures Inv(c, first, World(first, []))
    ensures var w := Exec(c, first, World(first, []), run);
            && (forall k :: RecordsOf(c, w.file, k) <= Max(1, RecordsOf(c, first, k)))
            && (Raises(c, SplitLines(first)) ==> w.file == first)
            && (forall i :: 0 <= i < |w.sinks| ==>
                  Agrees(c, w.file, w.sinks[i])
                  && (Refresh(c, w.file, w.sinks[i]).ok ==> Refresh(c, w.file, w.sinks[i]).state.seen == FileKeys(c, w.file)))
  {
    Begins(c, first);
    ExecKeepsInv(c, first, World(first, []), run);
    var w := Exec(c, first, World(first, []), run);
    forall i | 0 <= i < |w.sinks|
      ensures Refresh(c, w.file, w.sinks[i]).ok ==> Refresh(c, w.file, w.sinks[i]).state.seen == FileKeys(c, w.file)
    {
      RefreshIsReread(c, w.file, w.sinks[i]);
    }
  }

  // ---- Why the file must end in a newline ----

  lemma {:induction false} TornEnd(complete: string, tail: string)
    requires Clean(complete) && OneLine(tail)
    ensures CompleteEnd(complete + tail) == |complete|
  {
    var s := complete + tail;
    if tail == "" {
      assert s == complete;
    } else {
      var front := tail[..|tail| - 1];
      TornEnd(complete, front);
      assert s[|s| - 1] == tail[|tail| - 1];
      assert s[..|s| - 1] == complete + front;
    }
  }

  /**
   * After a write that was cut short, the next record is glued to the torn line. If that line cannot be read,
   * the record is lost, and the sink that wrote it answers Duplicate although its key is not in the file.
   */
  lemma TornLineSwallows<R(!new)>(c: Codec<R>, complete: string, tail: string, r: R, o: Outcome)
    requires Sound(c) && Clean(complete) && OneLine(tail) && c.encode(r).Some? && c.parse(tail + c.encode(r).value) == Skip
    requires !Raises(c, SplitLines(complete)) && c.keyOf(r) !in FileKeys(c, complete)
    requires o == WriteStep(c, complete + tail, New, r, NoFault)
    ensures o.answer == Written && c.keyOf(r) !in FileKeys(c, o.file)
    ensures o.state.offset <= |o.file| && WriteStep(c, o.file, o.state, r, NoFault).answer == Duplicate
  {
    var line := c.encode(r).value;
    var glued := tail + line;
    TornRefresh(c, complete, tail);
    assert o == Outcome(complete + tail + (line + "\n"), State(FileKeys(c, complete) + {c.keyOf(r)}, |complete|, 0), Written);
    Glue(complete, tail, line);
    GluedAddsNoKey(c, complete, glued);
    GluedLineIsSkipped(c, o.file, o.state, glued);
  }

  lemma Glue(complete: string, tail: string, line: string)
    ensures complete + tail + (line + "\n") == complete + ((tail + line) + "\n")
    ensures (complete + tail + (line + "\n"))[|complete|..] == (tail + line) + "\n"
  {
  }

  lemma TakeAll(a: string, b: string)
    ensures (a + b)[0..] == a + b && (a + b)[..|a|] == a
  {
  }

  lemma TornRefresh<R(!new)>(c: Codec<R>, complete: string, tail: string)
    requires Clean(complete) && OneLine(tail) && !Raises(c, SplitLines(complete))
    ensures Refresh(c, complete + tail, New) == Refreshed(State(FileKeys(c, complete), |complete|, 0), true)
  {
    TornEnd(complete, tail);
    TakeAll(complete, tail);
    RefreshReads(c, complete + tail, New, complete);
    AbsorbIs(c, SplitLines(complete), {});
    assert Absorb(c, SplitLines(complete), {}) == Absorbed(FileKeys(c, complete), true);
  }

  lemma GluedAddsNoKey<R(!new)>(c: Codec<R>, complete: string, glued: string)
    requires Clean(complete) && OneLine(glued) && c.parse(glued) == Skip
    ensures FileKeys(c, complete + (glued + "\n")) == FileKeys(c, complete)
  {
    SplitOne(glued);
    SplitConcat(complete, glued + "\n");
    KeysConcat(c, SplitLines(complete), [glued]);
    OneKey(c, glued);
  }

  lemma GluedLineIsSkipped<R(!new)>(c: Codec<R>, file: string, s: State, glued: string)
    requires s.offset <= |file| && file[s.offset..] == glued + "\n" && OneLine(glued) && c.parse(glued) == Skip
    ensures Refresh(c, file, s).ok && Refresh(c, file, s).state.seen == s.seen
  {
    var data := glued + "\n";
    SplitOne(glued);
    assert CompleteEnd(data) == |data| && data[..|data|] == data;
    RefreshReads(c, file, s, data);
    AbsorbIs(c, [glued], s.seen);
    OneKey(c, glued);
  }

  // ---- The class ----

  class SharedFile {
    var bytes: string

    constructor (bytes: string)
      ensures this.bytes == bytes
    {
      this.bytes := bytes;
    }
  }

  class JsonlCaptureSink<R> {
    const codec: Codec<R>
    const file: SharedFile
    var seen: set<Key>
    var offset: nat
    var dropped: nat

    function Now(): State
      reads this
    {
      State(seen, offset, dropped)
    }

    constructor (codec: Codec<R>, file: SharedFile)
      ensures this.codec == codec && this.file == file && Now() == New
    {
      this.codec := codec;
      this.file := file;
      seen := {};
      offset := 0;
      dropped := 0;
    }

    method RefreshSeen() returns (ok: bool)
      requires offset <= |file.bytes|
      modifies this
      ensures Refreshed(Now(), ok) == Refresh(codec, file.bytes, old(Now()))
    {
      var data := file.bytes[offset..];
      var end := CompleteEnd(data);
      var lines := SplitLines(data[..end]);
      var i := 0;
      while i < |lines|
        invariant i <= |lines| && offset == old(offset) && dropped == old(dropped)
        invariant Absorb(codec, lines[i..], seen) == Absorb(codec, lines, old(seen))
      {
        match codec.parse(lines[i]) {
          case IsKey(k) => seen := seen + {k};
          case Skip =>
          case Raise =>
            ok := false;
            return;
        }
        assert lines[i..][1..] == lines[i + 1..];
        i := i + 1;
      }
      offset := offset + end;
      ok := true;
    }

    method Write(record: R, fault: Fault) returns (answer: Answer)
      requires offset <= |file.bytes|
      modifies this, file
      ensures Outcome(file.bytes, Now(), answer) == WriteStep(codec, old(file.bytes), old(Now()), record, fault)
    {
      if fault == EarlyFault {
        dropped := dropped + 1;
        return Dropped;
      }
      var ok := RefreshSeen();
      if !ok {
        dropped := dropped + 1;
        return Dropped;
      }
      var key := codec.keyOf(record);
      if key in seen {
        return Duplicate;
      }
      var line := codec.encode(record);
      if line.None? || fault == LateFault {
        dropped := dropped + 1;
        return Dropped;
      }
      file.bytes := file.bytes + (line.value + "\n");
      seen := seen + {key};
      return Written;
    }
  }
}
