/**
 * The `<think>` splitters of services/app/app/llm.py: the one-shot `split_thinking` and the
 * streaming `ThinkingSplitter`, which must agree for every way of cutting the input into chunks.
 */
module Thinking {

  datatype RawTags = Tags(open: string, close: string)

  /** A pair of non-empty tags; the source uses ThinkTags, the proofs need nothing about the letters. */
  type Tags = t: RawTags | t.open != "" && t.close != "" witness ThinkTags

  const ThinkTags: RawTags := Tags("<think>", "</think>")

  /** The tag that ends the current mode. */
  function Tag(g: Tags, inThink: bool): (t: string)
    ensures t != ""
  {
    if inThink then g.close else g.open
  }

  predicate At(s: string, tag: string, i: nat) {
    i + |tag| <= |s| && s[i..i + |tag|] == tag
  }

  function FindFrom(s: string, tag: string, from: nat): (k: int)
    requires from <= |s|
    ensures k == -1 || (from <= k && k + |tag| <= |s|)
    decreases |s| - from
  {
    if At(s, tag, from) then from
    else if from == |s| then -1
    else FindFrom(s, tag, from + 1)
  }

  /** `str.find`: the first occurrence of `tag`, or -1. */
  function Find(s: string, tag: string): (k: int)
    ensures k == -1 || (0 <= k && k + |tag| <= |s|)
  {
    FindFrom(s, tag, 0)
  }

  ghost predicate FirstAt(s: string, tag: string, k: nat) {
    At(s, tag, k) && forall i: nat :: i < k ==> !At(s, tag, i)
  }

  ghost predicate Absent(s: string, tag: string) {
    forall i: nat :: !At(s, tag, i)
  }

  lemma {:induction false} FindFromIsFirst(s: string, tag: string, from: nat)
    requires from <= |s| && forall i: nat :: i < from ==> !At(s, tag, i)
    ensures var k := FindFrom(s, tag, from); if k == -1 then Absent(s, tag) else FirstAt(s, tag, k)
    decreases |s| - from
  {
    if !At(s, tag, from) && from < |s| {
      FindFromIsFirst(s, tag, from + 1);
    }
  }

  lemma FindIsFirst(s: string, tag: string)
    ensures var k := Find(s, tag); if k == -1 then Absent(s, tag) else FirstAt(s, tag, k)
  {
    FindFromIsFirst(s, tag, 0);
  }

  lemma FindIs(s: string, tag: string, k: nat)
    requires FirstAt(s, tag, k)
    ensures Find(s, tag) == k
  {
    FindIsFirst(s, tag);
    assert Find(s, tag) != -1 ==> !(Find(s, tag) < k) && !(k < Find(s, tag));
  }

  lemma FindNone(s: string, tag: string)
    requires Absent(s, tag)
    ensures Find(s, tag) == -1
  {
    FindIsFirst(s, tag);
  }

  /** An occurrence inside a prefix is the same occurrence in the whole text. */
  lemma AtInPrefix(s: string, tag: string, rest: string, i: nat)
    requires i + |tag| <= |s|
    ensures At(s + rest, tag, i) <==> At(s, tag, i)
  {
    assert (s + rest)[i..i + |tag|] == s[i..i + |tag|];
  }

  lemma AtInSuffix(s: string, tag: string, cut: nat, i: nat)
    requires cut <= |s|
    ensures At(s[cut..], tag, i) <==> At(s, tag, cut + i)
  {
    if cut + i + |tag| <= |s| {
      assert s[cut..][i..i + |tag|] == s[cut + i..cut + i + |tag|];
    }
  }

  /** A tag found in a text is still the first one when more text follows. */
  lemma FirstInPrefix(s: string, tag: string, rest: string, k: nat)
    requires FirstAt(s, tag, k)
    ensures FirstAt(s + rest, tag, k)
  {
    AtInPrefix(s, tag, rest, k);
    forall i: nat | i < k
      ensures !At(s + rest, tag, i)
    {
      AtInPrefix(s, tag, rest, i);
    }
  }

  /** Text sent to the two outputs so far. */
  datatype Parts = Parts(reasoning: string, visible: string)

  const Nothing: Parts := Parts("", "")

  function Send(sent: Parts, inThink: bool, text: string): Parts {
    if inThink then sent.(reasoning := sent.reasoning + text) else sent.(visible := sent.visible + text)
  }

  /** Where every character of `text` goes when reading starts in the given mode. */
  function Scan(g: Tags, sent: Parts, inThink: bool, text: string): Parts
    decreases |text|
  {
    var k := Find(text, Tag(g, inThink));
    if k == -1 then Send(sent, inThink, text)
    else Scan(g, Send(sent, inThink, text[..k]), !inThink, text[k + |Tag(g, inThink)|..])
  }

  function Split(g: Tags, text: string): Parts {
    Scan(g, Nothing, false, text)
  }

  lemma ScanFound(g: Tags, sent: Parts, inThink: bool, text: string, k: nat, sent': Parts, rest: string)
    requires k == Find(text, Tag(g, inThink))
    requires sent' == Send(sent, inThink, text[..k]) && rest == text[k + |Tag(g, inThink)|..]
    ensures Scan(g, sent, inThink, text) == Scan(g, sent', !inThink, rest)
  {
  }

  // ---- An independent description of the split ----

  /** `seg` runs up to the first `tag` that follows it. */
  predicate Closed(seg: string, tag: string) {
    Find(seg + tag, tag) == |seg|
  }

  /** Segments alternate between the modes; all but the last are ended by their mode's tag. */
  predicate WellCut(g: Tags, inThink: bool, segs: seq<string>)
    decreases |segs|
  {
    segs != [] &&
    if |segs| == 1 then Find(segs[0], Tag(g, inThink)) == -1
    else Closed(segs[0], Tag(g, inThink)) && WellCut(g, !inThink, segs[1..])
  }

  function Weave(g: Tags, inThink: bool, segs: seq<string>): string
    decreases |segs|
  {
    if segs == [] then ""
    else if |segs| == 1 then segs[0]
    else segs[0] + Tag(g, inThink) + Weave(g, !inThink, segs[1..])
  }

  function Deal(sent: Parts, inThink: bool, segs: seq<string>): Parts
    decreases |segs|
  {
    if segs == [] then sent else Deal(Send(sent, inThink, segs[0]), !inThink, segs[1..])
  }

  function Cut(g: Tags, inThink: bool, text: string): (segs: seq<string>)
    decreases |text|
  {
    var k := Find(text, Tag(g, inThink));
    if k == -1 then [text]
    else [text[..k]] + Cut(g, !inThink, text[k + |Tag(g, inThink)|..])
  }

  lemma FirstTagStays(seg: string, tag: string, rest: string)
    requires Closed(seg, tag)
    ensures Find(seg + tag + rest, tag) == |seg|
  {
    FindIsFirst(seg + tag, tag);
    FirstInPrefix(seg + tag, tag, rest, |seg|);
    FindIs(seg + tag + rest, tag, |seg|);
  }

  lemma HeadIsClosed(text: string, tag: string, k: nat)
    requires FirstAt(text, tag, k)
    ensures Closed(text[..k], tag) && text == text[..k] + tag + text[k + |tag|..]
  {
    var head := text[..k] + tag;
    assert head == text[..k + |tag|];
    assert text == head + text[k + |tag|..];
    AtInPrefix(head, tag, text[k + |tag|..], k);
    forall i: nat | i < k
      ensures !At(head, tag, i)
    {
      AtInPrefix(head, tag, text[k + |tag|..], i);
    }
    FindIs(head, tag, k);
  }

  lemma WeaveFound(g: Tags, inThink: bool, segs: seq<string>)
    requires |segs| > 1 && WellCut(g, inThink, segs)
    ensures var text, tag := Weave(g, inThink, segs), Tag(g, inThink);
            && Find(text, tag) == |segs[0]| && text[..|segs[0]|] == segs[0]
            && text[|segs[0]| + |tag|..] == Weave(g, !inThink, segs[1..])
  {
    FirstTagStays(segs[0], Tag(g, inThink), Weave(g, !inThink, segs[1..]));
  }

  /**
   * Scan is the split into alternating segments: every text has exactly one well-formed cutting
   * (CutIsUnique, EveryTextIsCut), and Scan deals its segments to the two outputs in turn.
   */
  lemma {:induction false} ScanDealsSegments(g: Tags, sent: Parts, inThink: bool, segs: seq<string>)
    requires WellCut(g, inThink, segs)
    ensures Scan(g, sent, inThink, Weave(g, inThink, segs)) == Deal(sent, inThink, segs)
    decreases |segs|
  {
    if |segs| == 1 {
      assert segs[1..] == [];
    } else {
      var rest, sent' := Weave(g, !inThink, segs[1..]), Send(sent, inThink, segs[0]);
      WeaveFound(g, inThink, segs);
      ScanDealsSegments(g, sent', !inThink, segs[1..]);
      ScanFound(g, sent, inThink, Weave(g, inThink, segs), |segs[0]|, sent', rest);
    }
  }

  lemma {:induction false} CutIsUnique(g: Tags, inThink: bool, segs: seq<string>)
    requires WellCut(g, inThink, segs)
    ensures Cut(g, inThink, Weave(g, inThink, segs)) == segs
    decreases |segs|
  {
    if |segs| == 1 {
      assert segs == [segs[0]];
    } else {
      WeaveFound(g, inThink, segs);
      CutIsUnique(g, !inThink, segs[1..]);
      assert segs == [segs[0]] + segs[1..];
    }
  }

  lemma {:induction false} EveryTextIsCut(g: Tags, inThink: bool, text: string)
    ensures WellCut(g, inThink, Cut(g, inThink, text)) && Weave(g, inThink, Cut(g, inThink, text)) == text
    decreases |text|
  {
    var tag := Tag(g, inThink);
    var k := Find(text, tag);
    if k != -1 {
      FindIsFirst(text, tag);
      HeadIsClosed(text, tag, k);
      var segs := Cut(g, !inThink, text[k + |tag|..]);
      EveryTextIsCut(g, !inThink, text[k + |tag|..]);
      assert ([text[..k]] + segs)[1..] == segs;
    }
  }

  /** `split_thinking`. */
  method SplitThinking(g: Tags, text: string) returns (reasoning: string, visible: string)
    ensures Parts(reasoning, visible) == Split(g, text)
  {
    reasoning, visible := "", "";
    var remaining := text;
    while true
      invariant Scan(g, Parts(reasoning, visible), false, remaining) == Split(g, text)
      decreases |remaining|
    {
      var start := Find(remaining, g.open);
      ghost var sent := Parts(reasoning, visible);
      if start == -1 {
        visible := visible + remaining;
        return;
      }
      visible := visible + remaining[..start];
      var afterOpen := remaining[start + |g.open|..];
      ghost var inside := Parts(reasoning, visible);
      ScanFound(g, sent, false, remaining, start, inside, afterOpen);
      var end := Find(afterOpen, g.close);
      if end == -1 {
        reasoning := reasoning + afterOpen;
        return;
      }
      reasoning := reasoning + afterOpen[..end];
      remaining := afterOpen[end + |g.close|..];
      ScanFound(g, inside, true, afterOpen, end, Parts(reasoning, visible), remaining);
    }
  }

  // ---- Streaming ----

  /** `sent` is everything handed out so far: `reasoning_text` and the visible text returned. */
  datatype State = State(inThink: bool, pending: string, sent: Parts)

  const Start: State := State(false, "", Nothing)

  /** The text before a tag found at `k` is sent, the tag is dropped and the mode flips. */
  function PastTag(g: Tags, st: State, k: nat): State
    requires k + |Tag(g, st.inThink)| <= |st.pending|
  {
    State(!st.inThink, st.pending[k + |Tag(g, st.inThink)|..], Send(st.sent, st.inThink, st.pending[..k]))
  }

  function Release(st: State, cut: nat): State
    requires cut <= |st.pending|
  {
    State(st.inThink, st.pending[cut..], Send(st.sent, st.inThink, st.pending[..cut]))
  }

  /** The loop of `feed`: move as many tags and as much text as the pending input allows. */
  function Drain(g: Tags, st: State): State
    decreases |st.pending|
  {
    var tag := Tag(g, st.inThink);
    var k := Find(st.pending, tag);
    if k == -1 then
      var cut := |st.pending| - (|tag| - 1);
      if cut > 0 then Release(st, cut) else st
    else Drain(g, PastTag(g, st, k))
  }

  lemma DrainTurn(g: Tags, st: State, k: nat, st': State)
    requires k == Find(st.pending, Tag(g, st.inThink)) && st' == PastTag(g, st, k)
    ensures Drain(g, st) == Drain(g, st')
  {
  }

  lemma DrainEnd(g: Tags, st: State, st': State)
    requires Find(st.pending, Tag(g, st.inThink)) == -1
    requires var cut := |st.pending| - (|Tag(g, st.inThink)| - 1); st' == if cut > 0 then Release(st, cut) else st
    ensures Drain(g, st) == st'
  {
  }

  function FeedStep(g: Tags, st: State, chunk: string): State {
    if chunk == "" then st else Drain(g, st.(pending := st.pending + chunk))
  }

  function FlushStep(st: State): State {
    State(st.inThink, "", Send(st.sent, st.inThink, st.pending))
  }

  /** Feeding chunks one after the other. */
  function FeedAll(g: Tags, st: State, chunks: seq<string>): State
    decreases |chunks|
  {
    if chunks == [] then st else FeedAll(g, FeedStep(g, st, chunks[0]), chunks[1..])
  }

  function Concat(chunks: seq<string>): string {
    if chunks == [] then "" else chunks[0] + Concat(chunks[1..])
  }

  lemma FindInPrefix(s: string, tag: string, rest: string)
    requires Find(s, tag) != -1
    ensures Find(s + rest, tag) == Find(s, tag)
  {
    FindIsFirst(s, tag);
    FirstInPrefix(s, tag, rest, Find(s, tag));
    FindIs(s + rest, tag, Find(s, tag));
  }

  /** If no tag starts in the first `cut` characters, the first tag is that of the remaining text. */
  lemma FindPastCut(s: string, tag: string, cut: nat)
    requires cut <= |s| && forall i: nat :: i < cut ==> !At(s, tag, i)
    ensures var k := Find(s[cut..], tag); Find(s, tag) == if k == -1 then -1 else cut + k
  {
    var k := Find(s[cut..], tag);
    FindIsFirst(s[cut..], tag);
    if k == -1 {
      forall i: nat
        ensures !At(s, tag, i)
      {
        if i >= cut {
          AtInSuffix(s, tag, cut, i - cut);
        }
      }
      FindNone(s, tag);
    } else {
      AtInSuffix(s, tag, cut, k);
      forall i: nat | i < cut + k
        ensures !At(s, tag, i)
      {
        if i >= cut {
          AtInSuffix(s, tag, cut, i - cut);
        }
      }
      FindIs(s, tag, cut + k);
    }
  }

  lemma SendSplits(sent: Parts, inThink: bool, a: string, b: string)
    ensures Send(sent, inThink, a + b) == Send(Send(sent, inThink, a), inThink, b)
  {
    assert sent.reasoning + (a + b) == sent.reasoning + a + b;
    assert sent.visible + (a + b) == sent.visible + a + b;
  }

  lemma Slices(s: string, cut: nat, a: nat, b: nat)
    requires cut + a <= cut + b <= |s|
    ensures s[..cut + a] == s[..cut] + s[cut..][..a] && s[cut + b..] == s[cut..][b..]
  {
    assert s[..cut + a] == s[..cut] + s[cut..][..a];
    assert s[cut + b..] == s[cut..][b..];
  }

  lemma ScanPastCut(g: Tags, sent: Parts, inThink: bool, s: string, cut: nat)
    requires cut <= |s| && forall i: nat :: i < cut ==> !At(s, Tag(g, inThink), i)
    ensures Scan(g, sent, inThink, s) == Scan(g, Send(sent, inThink, s[..cut]), inThink, s[cut..])
  {
    var tag, t := Tag(g, inThink), s[cut..];
    FindPastCut(s, tag, cut);
    var k := Find(t, tag);
    if k == -1 {
      assert s == s[..cut] + t;
      SendSplits(sent, inThink, s[..cut], t);
    } else {
      Slices(s, cut, k, k + |tag|);
      SendSplits(sent, inThink, s[..cut], t[..k]);
      var sent' := Send(sent, inThink, s[..cut + k]);
      ScanFound(g, sent, inThink, s, cut + k, sent', t[k + |tag|..]);
      ScanFound(g, Send(sent, inThink, s[..cut]), inThink, t, k, sent', t[k + |tag|..]);
    }
  }

  /** What a state still owes when `rest` follows. */
  function Finish(g: Tags, st: State, rest: string): Parts {
    Scan(g, st.sent, st.inThink, st.pending + rest)
  }

  /** Text that cannot be part of a tag, whatever follows, may be released. */
  lemma ReleaseIsExact(g: Tags, st: State, cut: nat, rest: string)
    requires Find(st.pending, Tag(g, st.inThink)) == -1
    requires cut <= |st.pending| && |st.pending| - cut >= |Tag(g, st.inThink)| - 1
    ensures Finish(g, Release(st, cut), rest) == Finish(g, st, rest)
  {
    var tag, s := Tag(g, st.inThink), st.pending;
    FindIsFirst(s, tag);
    forall i: nat | i < cut
      ensures !At(s + rest, tag, i)
    {
      AtInPrefix(s, tag, rest, i);
    }
    ScanPastCut(g, st.sent, st.inThink, s + rest, cut);
    PrefixSlices(s, rest, cut, cut);
  }

  lemma PrefixSlices(s: string, rest: string, a: nat, b: nat)
    requires a <= |s| && b <= |s|
    ensures (s + rest)[..a] == s[..a] && (s + rest)[b..] == s[b..] + rest
  {
  }

  lemma PastTagIsExact(g: Tags, st: State, k: nat, rest: string)
    requires k == Find(st.pending, Tag(g, st.inThink))
    ensures Finish(g, PastTag(g, st, k), rest) == Finish(g, st, rest)
  {
    var tag := Tag(g, st.inThink);
    FindInPrefix(st.pending, tag, rest);
    PrefixSlices(st.pending, rest, k, k + |tag|);
  }

  /** Draining never changes the final split, whatever input follows. */
  lemma {:induction false} DrainIsExact(g: Tags, st: State, rest: string)
    ensures Finish(g, Drain(g, st), rest) == Finish(g, st, rest)
    decreases |st.pending|
  {
    var tag := Tag(g, st.inThink);
    var k := Find(st.pending, tag);
    if k == -1 {
      var cut := |st.pending| - (|tag| - 1);
      if cut > 0 {
        ReleaseIsExact(g, st, cut, rest);
      }
    } else {
      DrainIsExact(g, PastTag(g, st, k), rest);
      PastTagIsExact(g, st, k, rest);
    }
  }

  /** Between chunks fewer characters are pending than the awaited tag has, hence no tag. */
  predicate Settled(g: Tags, st: State) {
    |st.pending| < |Tag(g, st.inThink)|
  }

  lemma {:induction false} DrainSettles(g: Tags, st: State)
    ensures Settled(g, Drain(g, st))
    decreases |st.pending|
  {
    var tag := Tag(g, st.inThink);
    var k := Find(st.pending, tag);
    if k != -1 {
      DrainSettles(g, PastTag(g, st, k));
    }
  }

  lemma {:induction false} FeedAllIsExact(g: Tags, st: State, chunks: seq<string>, rest: string)
    requires Settled(g, st)
    ensures Settled(g, FeedAll(g, st, chunks))
    ensures Finish(g, FeedAll(g, st, chunks), rest) == Finish(g, st, Concat(chunks) + rest)
    decreases |chunks|
  {
    if chunks == [] {
      assert "" + rest == rest;
    } else {
      var c, tail := chunks[0], Concat(chunks[1..]) + rest;
      var next := FeedStep(g, st, c);
      FeedKeepsSettled(g, st, c);
      FeedAllIsExact(g, next, chunks[1..], rest);
      FeedIsExact(g, st, c, tail);
      assert Concat(chunks) + rest == c + tail;
      assert FeedAll(g, st, chunks) == FeedAll(g, next, chunks[1..]);
    }
  }

  lemma FeedKeepsSettled(g: Tags, st: State, chunk: string)
    requires Settled(g, st)
    ensures Settled(g, FeedStep(g, st, chunk))
  {
    DrainSettles(g, st.(pending := st.pending + chunk));
  }

  lemma FeedIsExact(g: Tags, st: State, chunk: string, rest: string)
    ensures Finish(g, FeedStep(g, st, chunk), rest) == Finish(g, st, chunk + rest)
  {
    if chunk == "" {
      assert chunk + rest == rest;
    } else {
      DrainIsExact(g, st.(pending := st.pending + chunk), rest);
      assert st.pending + chunk + rest == st.pending + (chunk + rest);
    }
  }

  /** The streaming form agrees with the one-shot form for every cutting of the input into chunks. */
  lemma StreamEqualsSplit(g: Tags, chunks: seq<string>)
    ensures FlushStep(FeedAll(g, Start, chunks)).sent == Split(g, Concat(chunks))
  {
    var last := FeedAll(g, Start, chunks);
    FeedAllIsExact(g, Start, chunks, "");
    assert "" + (Concat(chunks) + "") == Concat(chunks);
    assert last.pending + "" == last.pending;
    FindNone(last.pending, Tag(g, last.inThink));
  }

  lemma {:induction false} ScanOnlyAppends(g: Tags, sent: Parts, inThink: bool, text: string)
    ensures var whole := Scan(g, sent, inThink, text);
            sent.visible <= whole.visible && sent.reasoning <= whole.reasoning
    decreases |text|
  {
    var k := Find(text, Tag(g, inThink));
    if k != -1 {
      ScanOnlyAppends(g, Send(sent, inThink, text[..k]), !inThink, text[k + |Tag(g, inThink)|..]);
    }
  }

  /**
   * Nothing is retracted and little is held back: at any moment, for every continuation of the
   * stream, what has been sent is a prefix of the final split, and at most 7 characters are pending.
   */
  lemma NothingRetracted(g: Tags, chunks: seq<string>, rest: string)
    ensures var now := FeedAll(g, Start, chunks);
            var whole := Split(g, Concat(chunks) + rest);
            && now.sent.visible <= whole.visible && now.sent.reasoning <= whole.reasoning
            && |now.pending| < |Tag(g, now.inThink)|
            && (g == ThinkTags ==> |now.pending| <= 7)
  {
    var now := FeedAll(g, Start, chunks);
    FeedAllIsExact(g, Start, chunks, rest);
    assert "" + (Concat(chunks) + rest) == Concat(chunks) + rest;
    ScanOnlyAppends(g, now.sent, now.inThink, now.pending + rest);
  }

  /** The mutable splitter. */
  class ThinkingSplitter {
    const tags: Tags
    var inThink: bool
    var pending: string
    var reasoningText: string
    ghost var shown: string  // everything `feed` and `flush` have returned

    ghost function View(): State
      reads this
    {
      State(inThink, pending, Parts(reasoningText, shown))
    }

    constructor (tags: Tags)
      ensures this.tags == tags && View() == Start
    {
      this.tags := tags;
      inThink, pending, reasoningText, shown := false, "", "", "";
    }

    method Feed(chunk: string) returns (visible: string)
      modifies this
      ensures View() == FeedStep(tags, old(View()), chunk)
      ensures shown == old(shown) + visible
    {
      visible := "";
      if chunk == "" {
        return;
      }
      pending := pending + chunk;
      ghost var before := shown;
      var done := false;
      while !done
        invariant (if done then View() else Drain(tags, View())) == FeedStep(tags, old(View()), chunk)
        invariant shown == before + visible
        decreases !done, |pending|
      {
        done, visible := Turn(visible, before);
      }
    }

    /** One turn of the feeding loop. */
    method Turn(visible: string, ghost before: string) returns (done: bool, out: string)
      requires shown == before + visible
      modifies this
      ensures (if done then View() else Drain(tags, View())) == Drain(tags, old(View()))
      ensures !done ==> |pending| < |old(pending)|
      ensures shown == before + out
    {
      var tag := Tag(tags, inThink);
      var idx := Find(pending, tag);
      ghost var st := View();
      out := visible;
      if idx == -1 {
        var keep := |tag| - 1;
        if |pending| > keep {
          out := Emit(|pending| - keep, 0, visible, before);
        }
        DrainEnd(tags, st, View());
        done := true;
      } else {
        out := Emit(idx, |tag|, visible, before);
        inThink := !inThink;
        DrainTurn(tags, st, idx, View());
        done := false;
      }
    }

    /** The first `cut` pending characters go to the output of the current mode; `skip` more are dropped. */
    method Emit(cut: nat, skip: nat, visible: string, ghost before: string) returns (out: string)
      requires cut + skip <= |pending| && shown == before + visible
      modifies this`pending, this`reasoningText, this`shown
      ensures View() == State(inThink, old(pending)[cut + skip..], Send(old(View()).sent, inThink, old(pending)[..cut]))
      ensures shown == before + out
    {
      var released := pending[..cut];
      pending := pending[cut + skip..];
      out := visible;
      if inThink {
        reasoningText := reasoningText + released;
      } else {
        out := visible + released;
        shown := shown + released;
      }
    }

    method Flush() returns (visible: string)
      modifies this
      ensures View() == FlushStep(old(View()))
      ensures shown == old(shown) + visible
    {
      var remainder := pending;
      pending := "";
      if inThink {
        reasoningText := reasoningText + remainder;
        visible := "";
      } else {
        shown := shown + remainder;
        visible := remainder;
      }
    }
  }
}
