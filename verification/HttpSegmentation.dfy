/** What the HTTP parser reports does not depend on how the stream was cut, with one
    exception: a line of exactly `maxHeaderSize` octets, cut between its CR and LF. */
module HttpSegmentation {
  import opened Bytes
  import opened Wrappers
  import opened HttpText
  import opened HttpParsing

  /** Append an event, joining it to a body chunk of the same request that said more follows. */
  function Merge(log: seq<Event>, e: Event): seq<Event> {
    if e.BodyChunk? && log != [] && log[|log| - 1].BodyChunk? && log[|log| - 1].more then
      log[..|log| - 1] + [BodyChunk(log[|log| - 1].data + e.data, e.more)]
    else
      log + [e]
  }

  function MergeAll(log: seq<Event>, events: seq<Event>): seq<Event>
    decreases |events|
  {
    if events == [] then log else MergeAll(Merge(log, events[0]), events[1..])
  }

  lemma {:induction false} MergeTwice(log: seq<Event>, early: seq<Event>, late: seq<Event>)
    ensures MergeAll(log, early + late) == MergeAll(MergeAll(log, early), late)
    decreases |early|
  {
    if early == [] {
      assert early + late == late;
    } else {
      MergeTwice(Merge(log, early[0]), early[1..], late);
      assert (early + late)[1..] == early[1..] + late;
    }
  }

  /** All that a caller sees: the merged events, the first error, the parser if it lives on. */
  datatype Shown = Shown(log: seq<Event>, error: Option<Error>, state: Option<State>)

  function Show(log: seq<Event>, r: Outcome): Shown {
    Shown(MergeAll(log, r.events), r.error, if r.error.None? then Some(r.state) else None)
  }

  function Run(cfg: Config, st: State, log: seq<Event>): Shown
    requires st.Live()
  {
    Show(log, Drain(cfg, st))
  }

  lemma ShowAfter(log: seq<Event>, earlier: seq<Event>, saw: bool, r: Outcome)
    ensures Show(log, r.After(earlier, saw)) == Show(MergeAll(log, earlier), r)
  {
    MergeTwice(log, earlier, r.events);
  }

  /** On the way from `st`, some line of exactly the limit's length is read while the
      merged log is `at`. */
  predicate ExactAt(cfg: Config, st: State, log: seq<Event>, at: seq<Event>)
    requires st.Live()
    decreases |st.buffer|, st.Pending()
  {
    var step := Next(cfg, st);
    || (!step.Stuck? && step.exact && log == at)
    || (step.Advanced? && ExactAt(cfg, step.state, MergeAll(log, step.events), at))
  }

  lemma RunTurn(cfg: Config, st: State, log: seq<Event>)
    requires st.Live()
    ensures var step := Next(cfg, st);
      && (step.Stuck? ==> Run(cfg, st, log) == Shown(log, None, Some(st)))
      && (step.Failed? ==> Run(cfg, st, log) == Shown(log, Some(step.error), None))
      && (step.Advanced? ==> Run(cfg, st, log) == Run(cfg, step.state, MergeAll(log, step.events)))
  {
    var step := Next(cfg, st);
    if step.Advanced? {
      MergeTwice(log, step.events, Drain(cfg, step.state).events);
    }
  }

  // ---- one step on a longer buffer

  lemma LineLonger(limit: nat, b: Bytes, more: Bytes)
    ensures var r, w := TakeLine(limit, b), TakeLine(limit, b + more);
      && (r.Line? ==> w == Line(r.line, r.rest + more))
      && (r.LineTooLong? ==> w.LineTooLong? || (w.Line? && |w.line| == limit))
  {
    var r, whole := TakeLine(limit, b), b + more;
    if r.Line? {
      var i := |r.line|;
      assert CrlfAt(b, i);
      assert FindCrlf(b) == i;
      forall j | CrlfAt(whole, j) ensures i <= j {
        if j + 1 < |b| {
          assert CrlfAt(b, j);
        }
      }
      assert CrlfAt(whole, i);
      assert FindCrlf(whole) == i;
      assert whole[..i] == b[..i] && whole[i + 2..] == b[i + 2..] + more;
    } else if r.LineTooLong? && FindCrlf(b) == -1 {
      forall j | CrlfAt(whole, j) ensures |b| - 1 <= j {
        assert !CrlfAt(b, j);
      }
    } else if r.LineTooLong? {
      var i := FindCrlf(b);
      forall j | CrlfAt(whole, j) ensures i <= j {
        if j + 1 < |b| {
          assert CrlfAt(b, j);
        }
      }
    }
  }

  /** The step takes all of a non-empty buffer as body data and more is still to come. */
  predicate Absorbs(st: State) {
    && st.phase == Body && st.buffer != []
    && if st.fields.chunked then st.chunkPhase == Data && |st.buffer| < st.chunkRemaining
       else |st.buffer| < st.bodyRemaining
  }

  /** What a step on a longer buffer may differ in. */
  predicate LongerStep(step: Step, whole: Step, more: Bytes) {
    && (step.Advanced? ==> whole == step.(state := step.state.Received(more)))
    && (step.Failed? ==> whole == step || (step.error == RequestTooLarge && !whole.Stuck? && whole.exact))
  }

  lemma StartLineLonger(cfg: Config, st: State, more: Bytes)
    ensures LongerStep(StepStartLine(cfg, st), StepStartLine(cfg, st.Received(more)), more)
  {
    hide ParseRequestLine;
    LineLonger(cfg.maxHeaderSize, st.buffer, more);
  }

  lemma HeadersLonger(cfg: Config, st: State, more: Bytes)
    ensures LongerStep(StepHeaders(cfg, st), StepHeaders(cfg, st.Received(more)), more)
  {
    hide ConsumeHeaderLine, DetectUpgrade;
    LineLonger(cfg.maxHeaderSize, st.buffer, more);
    var r := TakeLine(cfg.maxHeaderSize, st.buffer);
    if r.Line? && r.line == [] {
      var short := st.(buffer := r.rest);
      assert st.Received(more).(buffer := r.rest + more) == short.Received(more);
    }
  }

  lemma SizedLonger(st: State, more: Bytes)
    requires st.phase == Body && !st.fields.chunked && !Absorbs(st)
    ensures LongerStep(StepSized(st), StepSized(st.Received(more)), more)
  {
    if 0 < st.bodyRemaining <= |st.buffer| {
      var n, b := st.bodyRemaining, st.buffer + more;
      assert b[..n] == st.buffer[..n] && b[n..] == st.buffer[n..] + more;
    }
  }

  lemma SizeLonger(cfg: Config, st: State, more: Bytes)
    ensures LongerStep(StepSize(cfg, st), StepSize(cfg, st.Received(more)), more)
  {
    hide ChunkSize;
    LineLonger(cfg.maxHeaderSize, st.buffer, more);
  }

  lemma TrailersLonger(cfg: Config, st: State, more: Bytes)
    ensures LongerStep(StepTrailers(cfg, st), StepTrailers(cfg, st.Received(more)), more)
  {
    LineLonger(cfg.maxHeaderSize, st.buffer, more);
  }

  lemma ChunkedLonger(cfg: Config, st: State, more: Bytes)
    requires st.Live() && st.phase == Body && st.fields.chunked && !Absorbs(st)
    ensures LongerStep(StepChunked(cfg, st), StepChunked(cfg, st.Received(more)), more)
  {
    var b := st.buffer + more;
    var n := if st.chunkPhase == Data then st.chunkRemaining else 2;
    if n <= |st.buffer| {
      assert b[..n] == st.buffer[..n] && b[n..] == st.buffer[n..] + more;
    }
    match st.chunkPhase {
      case Size => SizeLonger(cfg, st, more);
      case Data =>
      case DataCrlf =>
      case Trailers => TrailersLonger(cfg, st, more);
    }
  }

  /** A step on a longer buffer is the same step, except where it absorbs the buffer and
      except where the shorter buffer had to give up on a line of exactly the limit. */
  lemma StepLonger(cfg: Config, st: State, more: Bytes)
    requires st.Live() && !Absorbs(st)
    ensures LongerStep(Next(cfg, st), Next(cfg, st.Received(more)), more)
  {
    match st.phase {
      case StartLine => StartLineLonger(cfg, st, more);
      case Headers => HeadersLonger(cfg, st, more);
      case Body => if st.fields.chunked { ChunkedLonger(cfg, st, more); } else { SizedLonger(st, more); }
      case Upgraded =>
    }
  }

  /** Body data in two steps is the same body data in one. */
  predicate SameData(step: Step, later: Step, whole: Step, log: seq<Event>) {
    && step.Advanced? && later.Advanced? && whole.Advanced?
    && whole.state == later.state
    && !step.exact && !later.exact && !whole.exact
    && MergeAll(log, whole.events) == MergeAll(MergeAll(log, step.events), later.events)
  }

  /** What one step does with n octets of a body of which `left` are to come. */
  function SizedStep(st: State, rest: Bytes, chunk: Bytes, left: nat): Step {
    if left == 0 then Advanced(Fresh(rest), [BodyChunk(chunk, false), RequestComplete], false)
    else Advanced(st.(buffer := rest, bodyRemaining := left), [BodyChunk(chunk, true)], false)
  }

  lemma SizedSteps(st: State, more: Bytes)
    requires st.phase == Body && !st.fields.chunked && Absorbs(st) && more != []
    ensures
      var left := st.bodyRemaining - |st.buffer|;
      var next, k := st.(buffer := [], bodyRemaining := left), Min(|more|, left);
      && StepSized(st) == SizedStep(st, [], st.buffer, left)
      && StepSized(next.Received(more)) == SizedStep(st, more[k..], more[..k], left - k)
      && StepSized(st.Received(more)) == SizedStep(st, more[k..], st.buffer + more[..k], left - k)
  {
    TakeMore(st.buffer, more, Min(|more|, st.bodyRemaining - |st.buffer|));
    hide Fresh;
  }

  lemma AbsorbSized(st: State, more: Bytes, log: seq<Event>)
    requires st.phase == Body && !st.fields.chunked && Absorbs(st) && more != []
    ensures var step := StepSized(st);
      && step.Advanced? && step.state == st.(buffer := [], bodyRemaining := st.bodyRemaining - |st.buffer|)
      && SameData(step, StepSized(step.state.Received(more)), StepSized(st.Received(more)), log)
  {
    SizedSteps(st, more);
    var k := Min(|more|, st.bodyRemaining - |st.buffer|);
    MergeLastChunk(log, st.buffer, more[..k]);
    MergeChunkAlone(log, st.buffer, more[..k]);
    hide StepSized, MergeAll, Min;
  }

  lemma DataSteps(st: State, more: Bytes)
    requires st.phase == Body && st.fields.chunked && Absorbs(st) && more != []
    ensures
      var left := st.chunkRemaining - |st.buffer|;
      var next, k := st.(buffer := [], chunkRemaining := left), Min(|more|, left);
      var after := st.(buffer := more[k..], chunkRemaining := left - k, chunkPhase := if left == k then DataCrlf else Data);
      && StepData(st) == Advanced(next, [BodyChunk(st.buffer, true)], false)
      && StepData(next.Received(more)) == Advanced(after, [BodyChunk(more[..k], true)], false)
      && StepData(st.Received(more)) == Advanced(after, [BodyChunk(st.buffer + more[..k], true)], false)
  {
    TakeMore(st.buffer, more, Min(|more|, st.chunkRemaining - |st.buffer|));
  }

  lemma AbsorbData(st: State, more: Bytes, log: seq<Event>)
    requires st.phase == Body && st.fields.chunked && Absorbs(st) && more != []
    ensures var step := StepData(st);
      && step.Advanced? && step.state == st.(buffer := [], chunkRemaining := st.chunkRemaining - |st.buffer|)
      && SameData(step, StepData(step.state.Received(more)), StepData(st.Received(more)), log)
  {
    DataSteps(st, more);
    MergeChunkAlone(log, st.buffer, more[..Min(|more|, st.chunkRemaining - |st.buffer|)]);
    hide StepData, MergeAll, Min;
  }

  lemma TakeMore(b: Bytes, more: Bytes, k: nat)
    requires k <= |more|
    ensures (b + more)[..|b| + k] == b + more[..k] && (b + more)[|b| + k..] == more[k..]
    ensures b[..|b|] == b && b[|b|..] == [] && [] + more == more
  {
  }

  lemma AbsorbStep(cfg: Config, st: State, more: Bytes, log: seq<Event>)
    requires st.Live() && Absorbs(st) && more != []
    ensures var step := Next(cfg, st);
      && step.Advanced? && Next(cfg, step.state).Stuck?
      && SameData(step, Next(cfg, step.state.Received(more)), Next(cfg, st.Received(more)), log)
  {
    if st.fields.chunked {
      AbsorbData(st, more, log);
    } else {
      AbsorbSized(st, more, log);
    }
  }

  lemma MergeLastChunk(log: seq<Event>, a: Bytes, b: Bytes)
    ensures MergeAll(log, [BodyChunk(a + b, false), RequestComplete]) ==
            MergeAll(MergeAll(log, [BodyChunk(a, true)]), [BodyChunk(b, false), RequestComplete])
  {
    MergeChunk(log, a, b, false, [RequestComplete]);
    assert [BodyChunk(b, false)] + [RequestComplete] == [BodyChunk(b, false), RequestComplete];
    assert [BodyChunk(a + b, false)] + [RequestComplete] == [BodyChunk(a + b, false), RequestComplete];
  }

  lemma MergeChunkAlone(log: seq<Event>, a: Bytes, b: Bytes)
    ensures MergeAll(log, [BodyChunk(a + b, true)]) ==
            MergeAll(MergeAll(log, [BodyChunk(a, true)]), [BodyChunk(b, true)])
  {
    MergeChunk(log, a, b, true, []);
    assert [BodyChunk(b, true)] + [] == [BodyChunk(b, true)];
    assert [BodyChunk(a + b, true)] + [] == [BodyChunk(a + b, true)];
  }

  lemma MergeChunk(log: seq<Event>, a: Bytes, b: Bytes, more: bool, tail: seq<Event>)
    ensures MergeAll(log, [BodyChunk(a + b, more)] + tail) ==
            MergeAll(MergeAll(log, [BodyChunk(a, true)]), [BodyChunk(b, more)] + tail)
  {
    var one, two := BodyChunk(a, true), BodyChunk(b, more);
    var first := Merge(log, one);
    assert [one][1..] == [] && ([two] + tail)[1..] == tail && ([BodyChunk(a + b, more)] + tail)[1..] == tail;
    assert MergeAll(log, [one]) == first;
    var k := |log| - 1;
    if log != [] && log[k].BodyChunk? && log[k].more {
      assert first[..|first| - 1] == log[..k];
      assert log[k].data + a + b == log[k].data + (a + b);
    } else {
      assert first[..|first| - 1] == log;
    }
    assert Merge(first, two) == Merge(log, BodyChunk(a + b, more));
  }

  // ---- whole runs on a longer buffer

  /** Parsing a longer buffer is parsing the shorter one and going on, unless the shorter
      one ended in a size error that a line of exactly the limit explains. */
  lemma {:induction false} RunLonger(cfg: Config, st: State, more: Bytes, log: seq<Event>)
    requires st.Live()
    ensures var r, whole := Run(cfg, st, log), st.Received(more);
      && (r.error.None? ==> r.state.value.Live())
      && (r.error.None? ==> Run(cfg, whole, log) == Run(cfg, r.state.value.Received(more), r.log))
      && (r.error.None? ==> forall at :: ExactAt(cfg, r.state.value.Received(more), r.log, at) ==> ExactAt(cfg, whole, log, at))
      && (r.error.Some? ==>
            Run(cfg, whole, log) == r || (r.error == Some(RequestTooLarge) && ExactAt(cfg, whole, log, r.log)))
    decreases |st.buffer|, st.Pending()
  {
    RunTurn(cfg, st, log);
    RunTurn(cfg, st.Received(more), log);
    var step := Next(cfg, st);
    if Absorbs(st) {
      RunAbsorbs(cfg, st, more, log);
    } else {
      StepLonger(cfg, st, more);
      if step.Advanced? {
        RunLonger(cfg, step.state, more, MergeAll(log, step.events));
      }
    }
  }

  lemma RunAbsorbs(cfg: Config, st: State, more: Bytes, log: seq<Event>)
    requires st.Live() && Absorbs(st)
    ensures var r, whole := Run(cfg, st, log), st.Received(more);
      && r.error.None? && r.state.value.Live()
      && Run(cfg, whole, log) == Run(cfg, r.state.value.Received(more), r.log)
      && forall at :: ExactAt(cfg, r.state.value.Received(more), r.log, at) ==> ExactAt(cfg, whole, log, at)
  {
    var step := Next(cfg, st);
    RunTurn(cfg, st, log);
    if more == [] {
      assert st.Received(more) == st;
      assert st.buffer[..|st.buffer|] == st.buffer;
      RunTurn(cfg, step.state, MergeAll(log, step.events));
      assert step.state.Received(more) == step.state;
    } else {
      AbsorbStep(cfg, st, more, log);
      var log1 := MergeAll(log, step.events);
      RunTurn(cfg, step.state, log1);
      RunTurn(cfg, st.Received(more), log);
      RunTurn(cfg, step.state.Received(more), log1);
    }
  }

  /** Every line of exactly the limit that is read is followed by no further event and
      by a size error. */
  ghost predicate CutSafe(cfg: Config, st: State, log: seq<Event>)
    requires st.Live()
  {
    forall at :: ExactAt(cfg, st, log, at) ==> Run(cfg, st, log) == Shown(at, Some(RequestTooLarge), None)
  }

  predicate Resting(cfg: Config, st: State)
    requires st.Live()
  {
    Next(cfg, st).Stuck?
  }

  lemma {:induction false} DrainedRests(cfg: Config, st: State)
    requires st.Live()
    ensures Drain(cfg, st).error.None? ==> Resting(cfg, Drain(cfg, st).state)
    decreases |st.buffer|, st.Pending()
  {
    var step := Next(cfg, st);
    if step.Advanced? {
      DrainedRests(cfg, step.state);
    }
  }

  lemma {:induction false} CutSafeAgrees(cfg: Config, st: State, log: seq<Event>, chunks: seq<Bytes>)
    requires st.Live() && Resting(cfg, st)
    requires CutSafe(cfg, st.Received(Join(chunks)), log)
    ensures Show(log, FeedAll(cfg, st, chunks)) == Run(cfg, st.Received(Join(chunks)), log)
    decreases |chunks|
  {
    if chunks == [] {
      assert st.Received([]) == st;
      RunTurn(cfg, st, log);
    } else {
      var first, rest := st.Received(chunks[0]), Join(chunks[1..]);
      assert st.buffer + chunks[0] + rest == st.buffer + (chunks[0] + rest);
      assert first.Received(rest) == st.Received(Join(chunks));
      RunLonger(cfg, first, rest, log);
      DrainedRests(cfg, first);
      var r := Run(cfg, first, log);
      if r.error.None? {
        CutSafeAgrees(cfg, r.state.value, r.log, chunks[1..]);
        var d := Drain(cfg, first);
        ShowAfter(log, d.events, d.exact, FeedAll(cfg, d.state, chunks[1..]));
      }
    }
  }

  // ---- the exception, exactly

  lemma ExactNeedsInput(cfg: Config, st: State, log: seq<Event>, at: seq<Event>)
    requires st.Live() && ExactAt(cfg, st, log, at)
    ensures st.buffer != []
    decreases |st.buffer|, st.Pending()
  {
  }

  predicate SameOnPrefix(step: Step, short: Step, keep: nat)
    requires step.Advanced? && keep <= |step.state.buffer|
  {
    short == step.(state := step.state.(buffer := step.state.buffer[..keep]))
  }

  /** The buffer cut `keep` octets behind what the step read. */
  function Shortened(st: State, step: Step, keep: nat): State
    requires step.Advanced? && keep <= |step.state.buffer| <= |st.buffer|
  {
    st.(buffer := st.buffer[..|st.buffer| - |step.state.buffer| + keep])
  }

  /** A step is the same on any prefix that holds what it read. */
  lemma StepShorter(cfg: Config, st: State, keep: nat)
    requires st.Live() && Next(cfg, st).Advanced? && keep <= |Next(cfg, st).state.buffer|
    ensures var step := Next(cfg, st);
      SameOnPrefix(step, Next(cfg, Shortened(st, step, keep)), keep)
  {
    match st.phase {
      case StartLine => ShorterStartLine(cfg, st, keep);
      case Headers => ShorterHeaders(cfg, st, keep);
      case Body => if st.fields.chunked { ShorterChunked(cfg, st, keep); } else { ShorterSized(st, keep); }
      case Upgraded =>
    }
  }

  lemma ShorterStartLine(cfg: Config, st: State, keep: nat)
    requires StepStartLine(cfg, st).Advanced? && keep <= |StepStartLine(cfg, st).state.buffer|
    ensures var step := StepStartLine(cfg, st);
      SameOnPrefix(step, StepStartLine(cfg, Shortened(st, step, keep)), keep)
  {
    hide ParseRequestLine;
    PrefixLine(cfg.maxHeaderSize, st.buffer, keep);
  }

  lemma ShorterHeaders(cfg: Config, st: State, keep: nat)
    requires StepHeaders(cfg, st).Advanced? && keep <= |StepHeaders(cfg, st).state.buffer|
    ensures var step := StepHeaders(cfg, st);
      SameOnPrefix(step, StepHeaders(cfg, Shortened(st, step, keep)), keep)
  {
    hide ConsumeHeaderLine, DetectUpgrade;
    PrefixLine(cfg.maxHeaderSize, st.buffer, keep);
  }

  lemma ShorterChunked(cfg: Config, st: State, keep: nat)
    requires st.Live() && StepChunked(cfg, st).Advanced? && keep <= |StepChunked(cfg, st).state.buffer|
    ensures var step := StepChunked(cfg, st);
      SameOnPrefix(step, StepChunked(cfg, Shortened(st, step, keep)), keep)
  {
    match st.chunkPhase {
      case Size => ShorterSize(cfg, st, keep);
      case Data => PrefixParts(st.buffer, |st.buffer| - |StepData(st).state.buffer|, keep);
      case DataCrlf => PrefixParts(st.buffer, 2, keep);
      case Trailers => ShorterTrailers(cfg, st, keep);
    }
  }

  lemma ShorterSize(cfg: Config, st: State, keep: nat)
    requires StepSize(cfg, st).Advanced? && keep <= |StepSize(cfg, st).state.buffer|
    ensures var step := StepSize(cfg, st);
      SameOnPrefix(step, StepSize(cfg, Shortened(st, step, keep)), keep)
  {
    hide ChunkSize;
    PrefixLine(cfg.maxHeaderSize, st.buffer, keep);
  }

  lemma ShorterTrailers(cfg: Config, st: State, keep: nat)
    requires StepTrailers(cfg, st).Advanced? && keep <= |StepTrailers(cfg, st).state.buffer|
    ensures var step := StepTrailers(cfg, st);
      SameOnPrefix(step, StepTrailers(cfg, Shortened(st, step, keep)), keep)
  {
    PrefixLine(cfg.maxHeaderSize, st.buffer, keep);
  }

  lemma ShorterSized(st: State, keep: nat)
    requires StepSized(st).Advanced? && keep <= |StepSized(st).state.buffer|
    ensures var step := StepSized(st);
      SameOnPrefix(step, StepSized(Shortened(st, step, keep)), keep)
  {
    PrefixParts(st.buffer, |st.buffer| - |StepSized(st).state.buffer|, keep);
  }

  lemma PrefixParts(b: Bytes, used: nat, keep: nat)
    requires used + keep <= |b|
    ensures b[..used + keep][..used] == b[..used] && b[..used + keep][used..] == b[used..][..keep]
  {
  }

  lemma PrefixLine(limit: nat, b: Bytes, keep: nat)
    ensures var r := TakeLine(limit, b);
      r.Line? && keep <= |r.rest| ==>
        TakeLine(limit, b[..|r.line| + 2 + keep]) == Line(r.line, r.rest[..keep])
  {
    var r := TakeLine(limit, b);
    if r.Line? && keep <= |r.rest| {
      var i := |r.line|;
      var s := b[..i + 2 + keep];
      assert CrlfAt(b, i) && FindCrlf(b) == i;
      forall j | CrlfAt(s, j) ensures i <= j {
        assert CrlfAt(b, j);
      }
      assert CrlfAt(s, i);
      PrefixParts(b, i, 2 + keep);
      PrefixParts(b, i + 2, keep);
    }
  }

  /** Cut right behind the CR of that line, the stream ends in a size error there. */
  lemma {:induction false} CutFails(cfg: Config, st: State, log: seq<Event>, at: seq<Event>) returns (p: nat)
    requires st.Live() && ExactAt(cfg, st, log, at)
    ensures 0 < p <= |st.buffer|
    ensures Run(cfg, st.(buffer := st.buffer[..p]), log) == Shown(at, Some(RequestTooLarge), None)
    decreases |st.buffer|, st.Pending()
  {
    hide Next;
    var step := Next(cfg, st);
    if step.exact && log == at {
      p := cfg.maxHeaderSize + 1;
      ExactLineCut(cfg, st);
      RunTurn(cfg, st.(buffer := st.buffer[..p]), log);
    } else {
      var next, log1 := step.state, MergeAll(log, step.events);
      ExactNeedsInput(cfg, next, log1, at);
      var q := CutFails(cfg, next, log1, at);
      StepShorter(cfg, st, q);
      p := |st.buffer| - |next.buffer| + q;
      RunTurn(cfg, st.(buffer := st.buffer[..p]), log);
    }
  }

  lemma ExactLineCut(cfg: Config, st: State)
    requires st.Live() && !Next(cfg, st).Stuck? && Next(cfg, st).exact
    ensures cfg.maxHeaderSize + 1 <= |st.buffer|
    ensures Next(cfg, st.(buffer := st.buffer[..cfg.maxHeaderSize + 1])) == Failed(RequestTooLarge, false)
  {
    var limit := cfg.maxHeaderSize;
    var r := TakeLine(limit, st.buffer);
    assert r.Line? && |r.line| == limit;
    var s := st.buffer[..limit + 1];
    forall j ensures !CrlfAt(s, j) {
      if CrlfAt(s, j) {
        assert CrlfAt(st.buffer, j);
      }
    }
    assert FindCrlf(s) == -1;
    assert TakeLine(limit, s).LineTooLong?;
  }

  lemma FreshRests(cfg: Config)
    ensures Resting(cfg, Fresh([]))
  {
  }

  /** A stream in which such a line is followed by something else can be cut so that it shows. */
  lemma UnsafeCut(cfg: Config, stream: Bytes) returns (chunks: seq<Bytes>)
    requires !CutSafe(cfg, Fresh(stream), [])
    ensures Join(chunks) == stream
    ensures Show([], FeedAll(cfg, Fresh([]), chunks)) != Run(cfg, Fresh(stream), [])
  {
    hide Next;
    var whole := Fresh(stream);
    var at :| ExactAt(cfg, whole, [], at) && Run(cfg, whole, []) != Shown(at, Some(RequestTooLarge), None);
    var p := CutFails(cfg, whole, [], at);
    chunks := [stream[..p], stream[p..]];
    JoinPair(stream[..p], stream[p..]);
    assert stream[..p] + stream[p..] == stream;
    assert Fresh([]).Received(stream[..p]) == whole.(buffer := stream[..p]);
  }

  /** Segmentation independence, exactly: every way of cutting a connection's stream
      shows the same merged events, the same first error and the same parser as feeding
      it whole, if and only if each line of exactly the limit's length is followed by
      nothing but a size error. */
  lemma SegmentationIndependent(cfg: Config, stream: Bytes)
    ensures
      (forall chunks: seq<Bytes> | Join(chunks) == stream ::
         Show([], FeedAll(cfg, Fresh([]), chunks)) == Run(cfg, Fresh(stream), []))
      <==> CutSafe(cfg, Fresh(stream), [])
  {
    hide Next;
    if CutSafe(cfg, Fresh(stream), []) {
      FreshRests(cfg);
      assert Fresh([]).Received(stream) == Fresh(stream);
      forall chunks: seq<Bytes> | Join(chunks) == stream
        ensures Show([], FeedAll(cfg, Fresh([]), chunks)) == Run(cfg, Fresh(stream), [])
      {
        CutSafeAgrees(cfg, Fresh([]), [], chunks);
      }
    } else {
      var chunks := UnsafeCut(cfg, stream);
    }
  }

  lemma {:induction false} UnseenIsAbsent(cfg: Config, st: State, log: seq<Event>, at: seq<Event>)
    requires st.Live() && !Drain(cfg, st).exact
    ensures !ExactAt(cfg, st, log, at)
    decreases |st.buffer|, st.Pending()
  {
    var step := Next(cfg, st);
    if step.Advanced? {
      UnseenIsAbsent(cfg, step.state, MergeAll(log, step.events), at);
    }
  }

  /** The form a caller can use: if no line read is exactly the limit, cutting changes nothing. */
  lemma NoExactLineNoDifference(cfg: Config, stream: Bytes, chunks: seq<Bytes>)
    requires Join(chunks) == stream && !Drain(cfg, Fresh(stream)).exact
    ensures Show([], FeedAll(cfg, Fresh([]), chunks)) == Run(cfg, Fresh(stream), [])
  {
    forall at ensures !ExactAt(cfg, Fresh(stream), [], at) {
      UnseenIsAbsent(cfg, Fresh(stream), [], at);
    }
    SegmentationIndependent(cfg, stream);
  }
}
