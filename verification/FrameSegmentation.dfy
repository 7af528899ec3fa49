/** The frame decoder does not see how its input was cut, and holds a bounded
    amount of it. */
module FrameSegmentation {
  import opened Bytes
  import opened Utf8
  import opened Wrappers
  import opened Frames
  import opened FrameDecoding

  /** Outcome of feeding chunk after chunk up to the first violation. `unread` is
      the input that no decoding step ever looked at: what follows the violation,
      or what arrives once the peer has closed. */
  datatype Session = Session(outcome: Outcome, unread: Bytes)

  function FeedAll(cfg: Config, st: State, chunks: seq<Bytes>): Session
    decreases |chunks|
  {
    if chunks == [] then Session(Outcome(st, [], None), [])
    else
      var r := Feed(cfg, st, chunks[0]);
      var skipped := if st.asm.closed then chunks[0] else [];
      if r.error.Some? then Session(r, Join(chunks[1..]))
      else
        var rest := FeedAll(cfg, r.state, chunks[1..]);
        Session(rest.outcome.After(r.events), skipped + rest.unread)
  }

  /** More input behind a decision that the front of the buffer already allows changes nothing. */
  lemma TakeIgnoresSuffix(cfg: Config, buffer: Bytes, more: Bytes, size: nat)
    requires !TakeFrame(cfg, buffer, size).Starved?
    ensures TakeFrame(cfg, buffer + more, size) == TakeFrame(cfg, buffer, size)
  {
    assert (buffer + more)[0] == buffer[0] && (buffer + more)[1] == buffer[1];
    if TakeLength(buffer).Length? || TakeLength(buffer).LengthTooWide? {
      LengthIgnoresSuffix(buffer, more);
    }
    if TakeLength(buffer).Length? {
      PayloadIgnoresSuffix(cfg.requireMask, buffer, more, TakeLength(buffer).length, TakeLength(buffer).offset);
    }
    hide TakeLength, TakePayload;
  }

  lemma SameSlice(b: Bytes, more: Bytes, i: nat, j: nat)
    requires i <= j <= |b|
    ensures (b + more)[i..j] == b[i..j]
  {
  }

  lemma LengthIgnoresSuffix(buffer: Bytes, more: Bytes)
    requires |buffer| >= 2 && !TakeLength(buffer).LengthStarved?
    ensures TakeLength(buffer + more) == TakeLength(buffer)
  {
    if buffer[1] % 128 == 126 {
      SameSlice(buffer, more, 2, 4);
    } else if buffer[1] % 128 == 127 {
      SameSlice(buffer, more, 2, 10);
    }
  }

  lemma PayloadIgnoresSuffix(masked: bool, buffer: Bytes, more: Bytes, length: nat, offset: nat)
    requires 2 <= offset <= |buffer|
    ensures forall fin, opcode ::
      !TakePayload(masked, buffer, fin, opcode, length, offset).Starved? ==>
        TakePayload(masked, buffer + more, fin, opcode, length, offset) == TakePayload(masked, buffer, fin, opcode, length, offset)
  {
    var start := if masked then offset + 4 else offset;
    if start + length <= |buffer| {
      SameSlice(buffer, more, start, start + length);
      SameSlice(buffer, more, offset, start);
    }
  }

  /** Decoding a longer input is decoding the shorter one and going on from there. */
  lemma {:induction false} DrainLonger(cfg: Config, st: State, more: Bytes)
    requires !st.asm.closed
    ensures
      var r := Drain(cfg, st);
      Drain(cfg, st.Received(more)) ==
        if r.error.Some? || r.state.asm.closed then r.(state := r.state.Received(more))
        else Drain(cfg, r.state.Received(more)).After(r.events)
    decreases |st.buffer|
  {
    var take := TakeFrame(cfg, st.buffer, st.asm.size);
    var r := Drain(cfg, st);
    var whole := st.Received(more);
    if take.Starved? {
      assert Drain(cfg, whole).After([]) == Drain(cfg, whole);
    } else {
      TakeIgnoresSuffix(cfg, st.buffer, more, st.asm.size);
      if take.Taken? {
        var (asm, effect) := HandleFrame(st.asm, take.frame);
        var next := State(st.buffer[take.length..], asm);
        assert whole.buffer[take.length..] == next.buffer + more;
        if !effect.Breach? && !asm.closed {
          DrainLonger(cfg, next, more);
          var n := Drain(cfg, next);
          if n.error.None? && !n.state.asm.closed {
            AfterTwice(Drain(cfg, n.state.Received(more)), n.events, EventsOf(effect));
          }
        }
      }
    }
  }

  lemma {:induction false} DrainedStaysPut(cfg: Config, st: State)
    requires !st.asm.closed
    ensures
      var r := Drain(cfg, st);
      r.error.None? && !r.state.asm.closed ==> TakeFrame(cfg, r.state.buffer, r.state.asm.size).Starved?
    decreases |st.buffer|
  {
    var take := TakeFrame(cfg, st.buffer, st.asm.size);
    if take.Taken? {
      var (asm, effect) := HandleFrame(st.asm, take.frame);
      if !effect.Breach? && !asm.closed {
        DrainedStaysPut(cfg, State(st.buffer[take.length..], asm));
      }
    }
  }

  /** A state that the decoder rests in: closed, or short of a whole frame. */
  predicate Resting(cfg: Config, st: State) {
    st.asm.closed || TakeFrame(cfg, st.buffer, st.asm.size).Starved?
  }

  /** A session in pieces shows what a single feed shows: the same events, the same
      violation with its close code, the same message in progress, and the same
      octets consumed, counting from the end of what is left. */
  predicate Agrees(s: Session, whole: Outcome) {
    && s.outcome.events == whole.events
    && s.outcome.error == whole.error
    && s.outcome.state.asm == whole.state.asm
    && s.outcome.state.buffer + s.unread == whole.state.buffer
  }

  /** Segmentation independence, for any way of cutting any stream. */
  lemma {:induction false} SegmentationIndependent(cfg: Config, st: State, chunks: seq<Bytes>)
    requires Resting(cfg, st) && !st.asm.closed
    ensures Agrees(FeedAll(cfg, st, chunks), Feed(cfg, st, Join(chunks)))
    decreases |chunks|
  {
    if chunks == [] {
      assert st.Received([]) == st;
    } else {
      var r := Feed(cfg, st, chunks[0]);
      DrainedStaysPut(cfg, st.Received(chunks[0]));
      if r.error.None? && !r.state.asm.closed {
        SegmentationIndependent(cfg, r.state, chunks[1..]);
      }
      FirstChunk(cfg, st, chunks);
    }
  }

  lemma FirstChunk(cfg: Config, st: State, chunks: seq<Bytes>)
    requires !st.asm.closed && chunks != []
    requires
      var r := Feed(cfg, st, chunks[0]);
      r.error.None? && !r.state.asm.closed ==>
        Agrees(FeedAll(cfg, r.state, chunks[1..]), Feed(cfg, r.state, Join(chunks[1..])))
    ensures Agrees(FeedAll(cfg, st, chunks), Feed(cfg, st, Join(chunks)))
  {
    var r, rest := Feed(cfg, st, chunks[0]), chunks[1..];
    FeedTwice(cfg, st, chunks[0], Join(rest));
    if r.error.None? && r.state.asm.closed {
      ClosedReadsNothing(cfg, r.state, rest);
    }
    var s := FeedAll(cfg, r.state, rest);
    assert [] + s.unread == s.unread;
  }

  lemma FeedTwice(cfg: Config, st: State, first: Bytes, second: Bytes)
    requires !st.asm.closed
    ensures
      var r := Feed(cfg, st, first);
      Feed(cfg, st, first + second) ==
        if r.error.Some? || r.state.asm.closed then r.(state := r.state.Received(second))
        else Feed(cfg, r.state, second).After(r.events)
  {
    assert st.buffer + first + second == st.buffer + (first + second);
    DrainLonger(cfg, st.Received(first), second);
  }

  /** Section 5.5.1 of RFC 6455: nothing after a close frame is decoded. */
  lemma {:induction false} ClosedReadsNothing(cfg: Config, st: State, chunks: seq<Bytes>)
    requires st.asm.closed
    ensures FeedAll(cfg, st, chunks) == Session(Outcome(st, [], None), Join(chunks))
    decreases |chunks|
  {
    if chunks != [] {
      ClosedReadsNothing(cfg, st, chunks[1..]);
    }
  }

  // ---- bounded memory

  ghost predicate Bounded(cfg: Config, st: State) {
    !st.asm.closed ==> |st.buffer| + |Join(st.asm.fragments)| <= cfg.maxMessageSize + 138
  }

  lemma StarvedIsShort(cfg: Config, st: State)
    requires st.asm.Valid(cfg)
    requires TakeFrame(cfg, st.buffer, st.asm.size).Starved?
    ensures |st.buffer| + st.asm.size <= cfg.maxMessageSize + 138
  {
  }

  lemma {:induction false} DrainKeeps(cfg: Config, st: State)
    requires st.asm.Valid(cfg) && !st.asm.closed
    ensures var r := Drain(cfg, st); r.error.None? ==> r.state.asm.Valid(cfg) && Bounded(cfg, r.state)
    decreases |st.buffer|
  {
    var take := TakeFrame(cfg, st.buffer, st.asm.size);
    if take.Starved? {
      StarvedIsShort(cfg, st);
    } else if take.Taken? {
      var (asm, effect) := HandleFrame(st.asm, take.frame);
      if !effect.Breach? {
        TakenFits(cfg, st);
        HandleKeepsValid(cfg, st.asm, take.frame);
        if !asm.closed {
          DrainKeeps(cfg, State(st.buffer[take.length..], asm));
        }
      }
    }
  }

  /** Whatever lengths the peer declares, the decoder stores at most the message
      limit and 138 octets between two feeds that report no violation. */
  lemma {:induction false} MemoryIsBounded(cfg: Config, chunks: seq<Bytes>)
    ensures
      var s := FeedAll(cfg, State([], FRESH), chunks);
      s.outcome.error.None? ==> Bounded(cfg, s.outcome.state)
  {
    BoundedFrom(cfg, State([], FRESH), chunks);
  }

  lemma {:induction false} BoundedFrom(cfg: Config, st: State, chunks: seq<Bytes>)
    requires st.asm.Valid(cfg) && Bounded(cfg, st)
    ensures
      var s := FeedAll(cfg, st, chunks);
      s.outcome.error.None? ==> Bounded(cfg, s.outcome.state)
    decreases |chunks|
  {
    if chunks != [] {
      if !st.asm.closed {
        DrainKeeps(cfg, st.Received(chunks[0]));
      }
      var r := Feed(cfg, st, chunks[0]);
      if r.error.None? {
        BoundedFrom(cfg, r.state, chunks[1..]);
      }
    }
  }

  // ---- what the events of one run look like

  /** What the peer sent can be answered: a ping with a pong, a close with a close frame. */
  predicate Answerable(e: FrameEvent) {
    && (e.PingReceived? ==> |e.data| <= MAX_CONTROL_PAYLOAD)
    && (e.CloseReceived? ==>
          (e.code == CLOSE_NO_STATUS && e.reason == []) || (IsValidCloseCode(e.code) && Encodable(e.reason)))
  }

  /** A close event is the last one, comes with no violation, and is what closes the
      decoder; a violation names one of three close codes. */
  predicate EndsOnce(r: Outcome) {
    && (forall i :: 0 <= i < |r.events| ==> Answerable(r.events[i]))
    && (forall i :: 0 <= i < |r.events| && r.events[i].CloseReceived? ==> i == |r.events| - 1 && r.error.None?)
    && (r.error.None? ==> (r.state.asm.closed <==> r.events != [] && r.events[|r.events| - 1].CloseReceived?))
    && (r.error.Some? ==> r.error.value in {CLOSE_PROTOCOL_ERROR, CLOSE_INVALID_PAYLOAD, CLOSE_MESSAGE_TOO_BIG})
  }

  lemma EffectIsSound(asm: Assembly, frame: Frame)
    requires !asm.closed
    requires frame.opcode.IsControl() ==> |frame.payload| <= MAX_CONTROL_PAYLOAD
    ensures var (asm', effect) := HandleFrame(asm, frame);
      && (effect.Emit? ==> Answerable(effect.event))
      && (effect.Breach? ==> effect.code in {CLOSE_PROTOCOL_ERROR, CLOSE_INVALID_PAYLOAD})
      && (!effect.Breach? ==> (asm'.closed <==> effect.Emit? && effect.event.CloseReceived?))
  {
    if frame.opcode == Opcode.Close && |frame.payload| > 1 && ValidUtf8(frame.payload[2..]) {
      EncodeDecode(frame.payload[2..]);
    }
  }

  lemma ControlsAreShort(cfg: Config, st: State)
    requires TakeFrame(cfg, st.buffer, st.asm.size).Taken?
    ensures var frame := TakeFrame(cfg, st.buffer, st.asm.size).frame;
      frame.opcode.IsControl() ==> |frame.payload| <= MAX_CONTROL_PAYLOAD
  {
    var start := TakeLength(st.buffer);
  }

  /** Any feed's events can be answered. */
  lemma FeedIsAnswerable(cfg: Config, st: State, data: Bytes)
    ensures forall i :: 0 <= i < |Feed(cfg, st, data).events| ==> Answerable(Feed(cfg, st, data).events[i])
    ensures var r := Feed(cfg, st, data);
      r.error.Some? ==> r.error.value in {CLOSE_PROTOCOL_ERROR, CLOSE_INVALID_PAYLOAD, CLOSE_MESSAGE_TOO_BIG}
  {
    if !st.asm.closed {
      DrainEndsOnce(cfg, st.Received(data));
    }
  }

  lemma EndsOnceAfter(r: Outcome, effect: Effect)
    requires EndsOnce(r) && !effect.Breach?
    requires effect.Emit? ==> Answerable(effect.event) && !effect.event.CloseReceived?
    ensures EndsOnce(r.After(EventsOf(effect)))
  {
    hide Answerable;
  }

  lemma EndsHere(st: State, effect: Effect)
    requires effect.Emit? && Answerable(effect.event) && effect.event.CloseReceived? && st.asm.closed
    ensures EndsOnce(Outcome(st, EventsOf(effect), None))
  {
    hide Answerable;
  }

  lemma {:induction false} DrainEndsOnce(cfg: Config, st: State)
    requires !st.asm.closed
    ensures EndsOnce(Drain(cfg, st))
    decreases |st.buffer|
  {
    hide HandleFrame, Answerable;
    var take := TakeFrame(cfg, st.buffer, st.asm.size);
    if take.Taken? {
      ControlsAreShort(cfg, st);
      EffectIsSound(st.asm, take.frame);
      var (asm, effect) := HandleFrame(st.asm, take.frame);
      var next := State(st.buffer[take.length..], asm);
      hide TakeFrame;
      if effect.Breach? {
      } else if asm.closed {
        EndsHere(next, effect);
        hide EndsOnce;
      } else {
        DrainEndsOnce(cfg, next);
        EndsOnceAfter(Drain(cfg, next), effect);
        hide EndsOnce, Outcome.After, EventsOf;
      }
    }
  }
}
