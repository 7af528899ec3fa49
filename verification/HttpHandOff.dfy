/** Where the parser's buffer ends up: handed over whole at an upgrade, and bounded
    before one. */
module HttpHandOff {
  import opened Bytes
  import opened Wrappers
  import opened HttpText
  import opened HttpParsing
  import opened HttpSegmentation
  import opened HttpExchanges

  // ---- the hand-over

  datatype Op = Feed(data: Bytes) | Take

  /** A parser's life so far: all octets fed, and all that `take_buffer` returned. */
  datatype Life = Life(state: State, fed: Bytes, taken: Bytes, error: Option<Error>)

  const BORN := Life(Fresh([]), [], [], None)

  /** `take_buffer` raises, and changes nothing, while HTTP framing goes on. */
  function Play(cfg: Config, life: Life, op: Op): (r: Life)
    requires life.state.Live()
    ensures r.state.Live()
  {
    if life.error.Some? then life
    else
      match op
      case Feed(data) =>
        var r := Drain(cfg, life.state.Received(data));
        Life(r.state, life.fed + data, life.taken, r.error)
      case Take =>
        if life.state.phase == Upgraded then
          Life(life.state.(buffer := []), life.fed, life.taken + life.state.buffer, None)
        else life
  }

  function PlayAll(cfg: Config, ops: seq<Op>): (r: Life)
    ensures r.state.Live()
    decreases |ops|
  {
    if ops == [] then BORN else Play(cfg, PlayAll(cfg, ops[..|ops| - 1]), ops[|ops| - 1])
  }

  predicate EndsHead(b: Bytes) {
    |b| >= 4 && b[|b| - 4..] == CRLF + CRLF
  }

  predicate EndsLine(b: Bytes) {
    |b| >= 2 && b[|b| - 2..] == CRLF
  }

  /** A run stops HTTP framing at a blank line, and leaves what follows it alone. */
  lemma {:induction false} UpgradePoint(cfg: Config, st: State, before: Bytes)
    requires st.Live() && st.phase != Upgraded
    requires st.phase == Headers ==> EndsLine(before)
    requires Drain(cfg, st).state.phase == Upgraded
    ensures var rest := Drain(cfg, st).state.buffer;
      && |rest| <= |st.buffer| && st.buffer[|st.buffer| - |rest|..] == rest
      && EndsHead(before + st.buffer[..|st.buffer| - |rest|])
    decreases |st.buffer|, st.Pending()
  {
    hide Next, EndsHead, EndsLine;
    var next := Next(cfg, st).state;
    var used := |st.buffer| - |next.buffer|;
    assert Drain(cfg, st).state == Drain(cfg, next).state;
    hide Drain;
    StepReads(cfg, st, before);
    if next.phase == Upgraded {
      UpgradedStops(cfg, next);
    } else {
      UpgradePoint(cfg, next, before + st.buffer[..used]);
      JoinParts(before, st.buffer, next.buffer, used, |next.buffer| - |Drain(cfg, next).state.buffer|);
    }
  }

  /** Two prefixes taken one after the other. */
  lemma JoinParts(before: Bytes, b: Bytes, next: Bytes, used: nat, keep: nat)
    requires used <= |b| && b[used..] == next && keep <= |next|
    ensures before + b[..used] + next[..keep] == before + b[..used + keep]
    ensures b[used + keep..] == next[keep..]
  {
    assert b[..used] + next[..keep] == b[..used + keep];
    assert before + b[..used] + next[..keep] == before + (b[..used] + next[..keep]);
  }

  /** Parsing just the octets up to that blank line ends in the same state. */
  lemma {:induction false} UpgradePrefix(cfg: Config, st: State)
    requires st.Live() && st.phase != Upgraded
    requires Drain(cfg, st).state.phase == Upgraded
    ensures |Drain(cfg, st).state.buffer| <= |st.buffer|
    ensures var r := Drain(cfg, st);
      Drain(cfg, st.(buffer := st.buffer[..|st.buffer| - |r.state.buffer|])) ==
        r.(state := r.state.(buffer := []))
    decreases |st.buffer|, st.Pending()
  {
    hide Next;
    var step := Next(cfg, st);
    var next := step.state;
    if next.phase == Upgraded {
      UpgradedStops(cfg, next);
      UpgradedStops(cfg, next.(buffer := []));
      StepShorter(cfg, st, 0);
      assert next.buffer[..0] == [];
    } else {
      UpgradePrefix(cfg, next);
      StepShorter(cfg, st, |next.buffer| - |Drain(cfg, next).state.buffer|);
    }
  }

  lemma UpgradedStops(cfg: Config, st: State)
    requires st.phase == Upgraded && st.Live()
    ensures Drain(cfg, st) == Outcome(st, [], None, false)
  {
  }

  /** A step takes a prefix off the buffer; header lines and blank lines end in CRLF. */
  lemma StepReads(cfg: Config, st: State, before: Bytes)
    requires st.Live() && Next(cfg, st).Advanced?
    requires st.phase == Headers ==> EndsLine(before)
    ensures var next := Next(cfg, st).state;
      && |next.buffer| <= |st.buffer|
      && var used := |st.buffer| - |next.buffer|;
         && st.buffer[used..] == next.buffer
         && (next.phase == Headers ==> EndsLine(before + st.buffer[..used]))
         && (next.phase == Upgraded ==> EndsHead(before + st.buffer[..used]))
  {
    hide ParseRequestLine, ConsumeHeaderLine, DetectUpgrade, StepChunked, StepSized, TakeLine, EndsLine, EndsHead;
    if st.phase == StartLine || st.phase == Headers {
      LineEnds(TakeLine(cfg.maxHeaderSize, st.buffer), st.buffer, before);
    } else if st.phase == Body {
      BodyReads(cfg, st);
    }
  }

  /** A line read ends in CRLF, and a blank one behind another line ends a head. */
  lemma LineEnds(r: LineRead, b: Bytes, before: Bytes)
    requires r.Line? && b == r.line + CRLF + r.rest
    ensures |r.rest| <= |b| && b[|b| - |r.rest|..] == r.rest
    ensures EndsLine(before + b[..|b| - |r.rest|])
    ensures r.line == [] && EndsLine(before) ==> EndsHead(before + b[..|b| - |r.rest|])
  {
    var used := |b| - |r.rest|;
    assert b[..used] == r.line + CRLF;
    var whole := before + b[..used];
    assert whole[|whole| - 2..] == CRLF;
    if r.line == [] && EndsLine(before) {
      assert whole[|whole| - 4..] == before[|before| - 2..] + CRLF;
    }
  }

  lemma BodyReads(cfg: Config, st: State)
    requires st.Live() && st.phase == Body && Next(cfg, st).Advanced?
    ensures var next := Next(cfg, st).state;
      && |next.buffer| <= |st.buffer| && st.buffer[|st.buffer| - |next.buffer|..] == next.buffer
      && (next.phase == Body || next.phase == StartLine)
  {
    hide ParseRequestLine, ConsumeHeaderLine, DetectUpgrade, ChunkSize, StepHeaders, StepStartLine;
    assert st.buffer[0..] == st.buffer;
  }

  /** After any feeds and takes without an error, the octets taken and still held are what
      one parse of the whole stream leaves, in the same state. */
  lemma {:induction false} LifeIsOneParse(cfg: Config, ops: seq<Op>)
    requires PlayAll(cfg, ops).error.None?
    ensures var life := PlayAll(cfg, ops);
      && (life.state.phase != Upgraded ==> life.taken == [])
      && Drain(cfg, Fresh(life.fed)).error.None?
      && Drain(cfg, Fresh(life.fed)).state == life.state.(buffer := life.taken + life.state.buffer)
    decreases |ops|
  {
    if ops == [] {
      FreshRests(cfg);
    } else {
      var prior, op := PlayAll(cfg, ops[..|ops| - 1]), ops[|ops| - 1];
      LifeIsOneParse(cfg, ops[..|ops| - 1]);
      match op {
        case Feed(data) => FeedIsOneParse(cfg, prior, data);
        case Take =>
          assert prior.taken + prior.state.buffer + [] == prior.taken + prior.state.buffer;
      }
    }
  }

  lemma FeedIsOneParse(cfg: Config, life: Life, data: Bytes)
    requires life.state.Live() && life.error.None? && Play(cfg, life, Feed(data)).error.None?
    requires life.state.phase != Upgraded ==> life.taken == []
    requires Drain(cfg, Fresh(life.fed)).error.None?
    requires Drain(cfg, Fresh(life.fed)).state == life.state.(buffer := life.taken + life.state.buffer)
    ensures var next := Play(cfg, life, Feed(data));
      && (next.state.phase != Upgraded ==> next.taken == [])
      && Drain(cfg, Fresh(next.fed)).error.None?
      && Drain(cfg, Fresh(next.fed)).state == next.state.(buffer := next.taken + next.state.buffer)
  {
    hide Next;
    var held := life.state.(buffer := life.taken + life.state.buffer);
    RunLonger(cfg, Fresh(life.fed), data, []);
    assert Fresh(life.fed).Received(data) == Fresh(life.fed + data);
    if life.state.phase == Upgraded {
      UpgradedStops(cfg, held.Received(data));
      UpgradedStops(cfg, life.state.Received(data));
      assert life.taken + life.state.buffer + data == life.taken + (life.state.buffer + data);
    } else {
      assert [] + life.state.buffer == life.state.buffer;
      assert held == life.state;
      var r := Drain(cfg, life.state.Received(data));
      assert [] + r.state.buffer == r.state.buffer;
    }
  }

  /** Upgrade hand-off, over any feeds and takes: the octets that `take_buffer` returned,
      in order, and those still held are exactly what follows the blank line that ended
      the upgrade head. */
  lemma HandOffLosesNothing(cfg: Config, ops: seq<Op>) returns (n: nat)
    requires PlayAll(cfg, ops).error.None? && PlayAll(cfg, ops).state.phase == Upgraded
    ensures var life := PlayAll(cfg, ops);
      && n <= |life.fed|
      && life.fed[n..] == life.taken + life.state.buffer
      && EndsHead(life.fed[..n])
      && Drain(cfg, Fresh(life.fed[..n])).state == life.state.(buffer := [])
  {
    hide Next;
    LifeIsOneParse(cfg, ops);
    var life := PlayAll(cfg, ops);
    var whole := Fresh(life.fed);
    UpgradePoint(cfg, whole, []);
    UpgradePrefix(cfg, whole);
    n := |life.fed| - |Drain(cfg, whole).state.buffer|;
    assert [] + life.fed[..n] == life.fed[..n];
    assert whole.(buffer := life.fed[..n]) == Fresh(life.fed[..n]);
  }

  // ---- bounded memory

  lemma RestIsShort(cfg: Config, st: State)
    requires st.Live() && Resting(cfg, st) && st.phase != Upgraded
    ensures |st.buffer| <= cfg.maxHeaderSize || |st.buffer| <= 1
  {
  }

  lemma {:induction false} FedRests(cfg: Config, st: State, chunks: seq<Bytes>)
    requires st.Live() && Resting(cfg, st)
    ensures var r := FeedAll(cfg, st, chunks); r.error.None? ==> Resting(cfg, r.state)
    decreases |chunks|
  {
    hide Next;
    if chunks != [] {
      DrainedRests(cfg, st.Received(chunks[0]));
      var r := Drain(cfg, st.Received(chunks[0]));
      if r.error.None? {
        FedRests(cfg, r.state, chunks[1..]);
      }
    }
  }

  /** After any successful feeds a connection that still speaks HTTP holds at most
      max(1, maxHeaderSize) octets, and its header list is within both limits. */
  lemma MemoryIsBounded(cfg: Config, chunks: seq<Bytes>)
    ensures var r := FeedAll(cfg, Fresh([]), chunks);
      r.error.None? && r.state.phase != Upgraded ==>
        && (|r.state.buffer| <= cfg.maxHeaderSize || |r.state.buffer| <= 1)
        && |r.state.fields.headers| <= cfg.maxHeaders
        && r.state.fields.headersSize <= cfg.maxHeaderSize
  {
    hide Next, InBodyMatches, ExchangeOk, LengthFaithful, CodingFaithful, TokensFaithful, OfferFaithful;
    var r := FeedAll(cfg, Fresh([]), chunks);
    if r.error.None? && r.state.phase != Upgraded {
      FreshRests(cfg);
      FedRests(cfg, Fresh([]), chunks);
      RestIsShort(cfg, r.state);
      var shape := EventsAreExchanges(cfg, chunks);
    }
  }
}
