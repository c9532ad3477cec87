/** server.py: the caller receive loop (`twilio_receiver`) and the agent
    receive loop with barge-in handling (`sts_receiver`). */
module Server {
  import opened Wire
  import opened Framing

  // ---------------------------------------------------------------------
  // twilio_receiver: caller audio into 800-byte frames for the agent
  // ---------------------------------------------------------------------

  /** One caller event: `start` hands on its stream id, an inbound-track
      `media` payload is appended, `connected` skips the drain pass, and
      `stop` or a message that raised ends the loop with nothing queued. */
  function Receive(inbuffer: Bytes, e: CallerEvent): (h: Handled)
  {
    match e
    case Start(sid) => Flush(inbuffer, [StreamSid(sid)])
    case Connected => Handled(inbuffer, [], true)
    case Media(track, payload) =>
      Flush(if track == "inbound" then inbuffer + payload else inbuffer, [])
    case Unrecognised => Flush(inbuffer, [])
    case Stop => Handled(inbuffer, [], false)
    case Malformed => Handled(inbuffer, [], false)
  }

  /** The `async for` loop over a stream of caller events, from a buffer. */
  function Run(inbuffer: Bytes, events: seq<CallerEvent>): (r: Handled)
    decreases |events|
  {
    if events == [] then Handled(inbuffer, [], true)
    else
      var h := Receive(inbuffer, events[0]);
      if !h.listening then h
      else
        var t := Run(h.inbuffer, events[1..]);
        Handled(t.inbuffer, h.out + t.out, t.listening)
  }

  /** One event keeps the frame invariant: only whole frames are queued,
      less than a frame stays behind, and the queued frames followed by the
      new remainder are the old remainder followed by the event's inbound
      bytes. `stop` and a malformed message change nothing. */
  lemma ReceiveKeepsBytes(inbuffer: Bytes, e: CallerEvent)
    requires |inbuffer| < BufferSize
    ensures var h := Receive(inbuffer, e);
      && h.listening == !EndsReceive(e)
      && AllFull(FramesOf(h.out))
      && |h.inbuffer| < BufferSize
      && Flatten(FramesOf(h.out)) + h.inbuffer == inbuffer + InboundPayload(e)
  {
    match e
    case Start(sid) =>
      assert FramesOf([StreamSid(sid)]) == [];
      FlushKeepsBytes(inbuffer, [StreamSid(sid)]);
    case Media(track, payload) =>
      var buf := if track == "inbound" then inbuffer + payload else inbuffer;
      assert FramesOf([]) == [];
      FlushKeepsBytes(buf, []);
    case Unrecognised =>
      assert FramesOf([]) == [];
      FlushKeepsBytes(inbuffer, []);
    case Connected =>
    case Stop =>
    case Malformed =>
  }

  /** Over any stream of caller events: every queued frame is 800 bytes, the
      buffer ends below 800, and the frames joined in order followed by the
      remainder are exactly the inbound audio received, so nothing is lost,
      repeated or reordered. */
  lemma {:induction false} RunKeepsBytes(inbuffer: Bytes, events: seq<CallerEvent>)
    requires |inbuffer| < BufferSize
    ensures var r := Run(inbuffer, events);
      && AllFull(FramesOf(r.out))
      && |r.inbuffer| < BufferSize
      && Flatten(FramesOf(r.out)) + r.inbuffer == inbuffer + InboundBytes(events)
    decreases |events|
  {
    if events == [] {
      assert FramesOf([]) == [] && inbuffer + [] == inbuffer;
    } else {
      var e := events[0];
      var h := Receive(inbuffer, e);
      ReceiveKeepsBytes(inbuffer, e);
      if h.listening {
        var t := Run(h.inbuffer, events[1..]);
        RunKeepsBytes(h.inbuffer, events[1..]);
        Compose(inbuffer, h, t, InboundPayload(e), InboundBytes(events[1..]));
      } else {
        assert h == Handled(inbuffer, [], false);
        assert FramesOf([]) == [] && inbuffer + [] == inbuffer;
      }
    }
  }

  /** A `media` event on another track, or a `connected` event, leaves the
      buffer as it was and queues nothing. */
  lemma IgnoredEvents(inbuffer: Bytes, e: CallerEvent)
    requires |inbuffer| < BufferSize
    requires e.Connected? || (e.Media? && e.track != "inbound")
    ensures Receive(inbuffer, e) == Handled(inbuffer, [], true)
  {
  }

  /** After `stop` (or a message that raised) nothing more is read: what the
      loop queued and the remainder it drops are those of the events before
      it, whatever follows. The remainder is never queued as a short frame. */
  lemma {:induction false} NothingAfterEnd(inbuffer: Bytes, before: seq<CallerEvent>, end: CallerEvent, after: seq<CallerEvent>)
    requires forall i :: 0 <= i < |before| ==> !EndsReceive(before[i])
    requires EndsReceive(end)
    ensures var r := Run(inbuffer, before + [end] + after);
      && r == Handled(Run(inbuffer, before).inbuffer, Run(inbuffer, before).out, false)
    decreases |before|
  {
    var events := before + [end] + after;
    if before == [] {
      assert events[0] == end;
    } else {
      assert events[0] == before[0];
      assert events[1..] == before[1..] + [end] + after;
      var h := Receive(inbuffer, before[0]);
      assert h.listening;
      NothingAfterEnd(h.inbuffer, before[1..], end, after);
    }
  }

  /** Run, one event taken off the front. */
  lemma RunCons(inbuffer: Bytes, e: CallerEvent, rest: seq<CallerEvent>)
    ensures Run(inbuffer, [e] + rest)
         == var h := Receive(inbuffer, e);
            if !h.listening then h
            else var t := Run(h.inbuffer, rest); Handled(t.inbuffer, h.out + t.out, t.listening)
  {
    assert ([e] + rest)[0] == e && ([e] + rest)[1..] == rest;
  }

  /** Five 160-byte inbound packets from an empty buffer: the first four
      queue nothing and only grow the buffer, the fifth queues one 800-byte
      frame holding all five in order and leaves the buffer empty. */
  lemma FivePacketSteps(p1: Bytes, p2: Bytes, p3: Bytes, p4: Bytes, p5: Bytes)
    requires |p1| == |p2| == |p3| == |p4| == |p5| == 160
    ensures Receive([], Media("inbound", p1)) == Handled(p1, [], true)
    ensures Receive(p1, Media("inbound", p2)) == Handled(p1 + p2, [], true)
    ensures Receive(p1 + p2, Media("inbound", p3)) == Handled(p1 + p2 + p3, [], true)
    ensures Receive(p1 + p2 + p3, Media("inbound", p4)) == Handled(p1 + p2 + p3 + p4, [], true)
    ensures Receive(p1 + p2 + p3 + p4, Media("inbound", p5)) == Handled([], [Frame(p1 + p2 + p3 + p4 + p5)], true)
  {
    var all := p1 + p2 + p3 + p4 + p5;
    assert [] + p1 == p1;
    assert all[..BufferSize] == all && all[BufferSize..] == [];
    assert Drain(all) == Split([all], []);
    assert AsFrames([all]) == [Frame(all)];
  }

  /** The same five packets as one run of the receive loop. */
  lemma FivePackets(p1: Bytes, p2: Bytes, p3: Bytes, p4: Bytes, p5: Bytes)
    requires |p1| == |p2| == |p3| == |p4| == |p5| == 160
    ensures Run([], [Media("inbound", p1), Media("inbound", p2), Media("inbound", p3), Media("inbound", p4), Media("inbound", p5)])
         == Handled([], [Frame(p1 + p2 + p3 + p4 + p5)], true)
  {
    var m1, m2, m3, m4, m5 := Media("inbound", p1), Media("inbound", p2), Media("inbound", p3), Media("inbound", p4), Media("inbound", p5);
    var all := p1 + p2 + p3 + p4 + p5;
    FivePacketSteps(p1, p2, p3, p4, p5);
    RunCons(p1 + p2 + p3 + p4, m5, []);
    assert [m5] == [m5] + [];
    assert Run(p1 + p2 + p3 + p4, [m5]) == Handled([], [Frame(all)], true);
    RunCons(p1 + p2 + p3, m4, [m5]);
    assert [m4, m5] == [m4] + [m5];
    assert Run(p1 + p2 + p3, [m4, m5]) == Handled([], [Frame(all)], true);
    RunCons(p1 + p2, m3, [m4, m5]);
    assert [m3, m4, m5] == [m3] + [m4, m5];
    assert Run(p1 + p2, [m3, m4, m5]) == Handled([], [Frame(all)], true);
    RunCons(p1, m2, [m3, m4, m5]);
    assert [m2, m3, m4, m5] == [m2] + [m3, m4, m5];
    assert Run(p1, [m2, m3, m4, m5]) == Handled([], [Frame(all)], true);
    RunCons([], m1, [m2, m3, m4, m5]);
    assert [m1, m2, m3, m4, m5] == [m1] + [m2, m3, m4, m5];
  }

  /** twilio_receiver as a class: the buffer it extends and re-slices, and
      whether its `async for` loop is still running. The ghost fields record
      all inbound audio received and all frames queued so far. */
  class InboundRelay {
    var inbuffer: Bytes
    var listening: bool
    ghost var inbound: Bytes
    ghost var queued: seq<Bytes>

    ghost predicate Valid()
      reads this
    {
      && |inbuffer| < BufferSize
      && AllFull(queued)
      && Flatten(queued) + inbuffer == inbound
    }

    constructor ()
      ensures Valid() && listening
      ensures inbuffer == [] && inbound == [] && queued == []
    {
      inbuffer, listening := [], true;
      inbound, queued := [], [];
    }

    /** Handle one caller message and return what it queues. */
    method Step(e: CallerEvent) returns (out: seq<Output>)
      requires Valid() && listening
      modifies this
      ensures Valid()
      ensures Receive(old(inbuffer), e) == Handled(inbuffer, out, listening)
      ensures inbound == old(inbound) + InboundPayload(e)
      ensures queued == old(queued) + FramesOf(out)
    {
      match e {
        case Start(sid) =>
          out := DrainPass([StreamSid(sid)]);
        case Connected =>
          out := [];
          assert FramesOf(out) == [] && InboundPayload(e) == [];
        case Media(track, payload) =>
          if track == "inbound" {
            inbuffer := inbuffer + payload;
            inbound := inbound + payload;
          }
          out := DrainPass([]);
        case Unrecognised =>
          out := DrainPass([]);
        case Stop =>
          listening := false;
          out := [];
          assert FramesOf(out) == [];
        case Malformed =>
          listening := false;
          out := [];
          assert FramesOf(out) == [];
      }
    }

    /** The drain pass after a handled message: queue every ready frame,
      after what the message itself queued, and keep the remainder. */
    method DrainPass(before: seq<Output>) returns (out: seq<Output>)
      requires FramesOf(before) == []
      requires AllFull(queued) && Flatten(queued) + inbuffer == inbound
      modifies this
      ensures Valid() && listening == old(listening) && inbound == old(inbound)
      ensures Flush(old(inbuffer), before) == Handled(inbuffer, out, true)
      ensures queued == old(queued) + FramesOf(out)
    {
      var rest;
      out, rest := FlushReady(inbuffer, before);
      QueueExtend(queued, FramesOf(out), rest, inbuffer);
      inbuffer := rest;
      queued := queued + FramesOf(out);
    }
  }

  // ---------------------------------------------------------------------
  // sts_receiver: agent audio and control messages back to the caller
  // ---------------------------------------------------------------------

  /** The two flags of the barge-in relay. */
  datatype Flags = Flags(shouldClear: bool, firstTtsChunk: bool)

  /** The flags when the relay starts (server.py:63-64). */
  const Initial := Flags(false, true)

  datatype Relayed = Relayed(flags: Flags, out: seq<Output>, listening: bool)

  /** The flags as the drop check at server.py:90 reads them: the first
      audio chunk after the start or a barge-in resets both flags first. */
  function AtDropCheck(f: Flags): (g: Flags)
  {
    if f.firstTtsChunk then Flags(false, false) else f
  }

  /** One agent message, as written: a `UserStartedSpeaking` control message
      sends `clear` and sets both flags; any other control message sends
      nothing; a control message without "type" or a text frame that is not
      a JSON object raises and ends the loop; an audio chunk is dropped if
      `should_clear` is set at the drop check and sent as `media` otherwise. */
  function Relay(f: Flags, sid: string, m: AgentMessage): (r: Relayed)
  {
    match m
    case Garbled => Relayed(f, [], false)
    case Control(kind, _) =>
      if kind.None? then Relayed(f, [], false)
      else if kind.value == "UserStartedSpeaking" then Relayed(Flags(true, true), [Clear(sid)], true)
      else Relayed(f, [], true)
    case Binary(audio) =>
      var g := AtDropCheck(f);
      if g.shouldClear then Relayed(g, [], true)
      else Relayed(g, [MediaOut(sid, audio)], true)
  }

  /** The `async for` loop over a stream of agent messages. */
  function RelayAll(f: Flags, sid: string, msgs: seq<AgentMessage>): (r: Relayed)
    decreases |msgs|
  {
    if msgs == [] then Relayed(f, [], true)
    else
      var h := Relay(f, sid, msgs[0]);
      if !h.listening then h
      else
        var t := RelayAll(h.flags, sid, msgs[1..]);
        Relayed(t.flags, h.out + t.out, t.listening)
  }

  /** The flags the relay can reach: `should_clear` is only ever set together
      with `first_tts_chunk`. */
  predicate Consistent(f: Flags)
  {
    f.shouldClear ==> f.firstTtsChunk
  }

  /** A reference for what the relay sends, with no state at all: a `clear`
      for every barge-in, every audio chunk as `media` with the same bytes,
      nothing for other control messages, until a message that raises. */
  function Expected(sid: string, msgs: seq<AgentMessage>): (out: seq<Output>)
  {
    if msgs == [] then []
    else match msgs[0]
      case Garbled => []
      case Control(kind, _) =>
        if kind.None? then []
        else (if kind.value == "UserStartedSpeaking" then [Clear(sid)] else []) + Expected(sid, msgs[1..])
      case Binary(audio) => [MediaOut(sid, audio)] + Expected(sid, msgs[1..])
  }

  /** One message keeps the flags consistent, and at the drop check
      `should_clear` is false, so the drop branch is never taken. */
  lemma RelayStep(f: Flags, sid: string, m: AgentMessage)
    requires Consistent(f)
    ensures Consistent(Relay(f, sid, m).flags)
    ensures m.Binary? ==> !AtDropCheck(f).shouldClear
    ensures m.Binary? ==> Relay(f, sid, m) == Relayed(Flags(false, false), [MediaOut(sid, m.audio)], true)
  {
  }

  /** From consistent flags, the relay sends exactly the reference output:
      one `clear` with the stream id per barge-in, every audio chunk forwarded
      once with the same bytes and stream id, in arrival order, and no
      control message ever sends `media`. */
  lemma {:induction false} RelayIsExpected(f: Flags, sid: string, msgs: seq<AgentMessage>)
    requires Consistent(f)
    ensures RelayAll(f, sid, msgs).out == Expected(sid, msgs)
    ensures Consistent(RelayAll(f, sid, msgs).flags)
    decreases |msgs|
  {
    if msgs != [] {
      RelayStep(f, sid, msgs[0]);
      var h := Relay(f, sid, msgs[0]);
      if h.listening {
        RelayIsExpected(h.flags, sid, msgs[1..]);
      }
    }
  }

  /** Whatever the agent sent before, an audio chunk that reaches the drop
      check finds `should_clear` false and is forwarded. */
  lemma NeverDrops(sid: string, msgs: seq<AgentMessage>, audio: Bytes)
    ensures !AtDropCheck(RelayAll(Initial, sid, msgs).flags).shouldClear
    ensures var g := RelayAll(Initial, sid, msgs).flags;
      Relay(g, sid, Binary(audio)).out == [MediaOut(sid, audio)]
  {
    RelayIsExpected(Initial, sid, msgs);
    RelayStep(RelayAll(Initial, sid, msgs).flags, sid, Binary(audio));
  }

  /** sts_receiver as a class: the stream id it took from the hand-off queue,
      its two flags, and whether its loop is still running. */
  class BargeInRelay {
    const streamSid: string
    var shouldClear: bool
    var firstTtsChunk: bool
    var listening: bool

    ghost predicate Valid()
      reads this
    {
      Consistent(Flags(shouldClear, firstTtsChunk))
    }

    constructor (sid: string)
      ensures Valid() && listening && streamSid == sid
      ensures Flags(shouldClear, firstTtsChunk) == Initial
    {
      streamSid := sid;
      shouldClear, firstTtsChunk := false, true;
      listening := true;
    }

    /** Handle one agent message and return what it sends to the caller. */
    method Step(m: AgentMessage) returns (out: seq<Output>)
      requires Valid() && listening
      modifies this
      ensures Valid()
      ensures Relay(Flags(old(shouldClear), old(firstTtsChunk)), streamSid, m)
           == Relayed(Flags(shouldClear, firstTtsChunk), out, listening)
      ensures m.Binary? ==> out == [MediaOut(streamSid, m.audio)]
    {
      match m {
        case Garbled =>
          listening := false;
          return [];
        case Control(kind, _) =>
          if kind.None? {
            listening := false;
            return [];
          }
          if kind.value == "UserStartedSpeaking" {
            out := [Clear(streamSid)];
            shouldClear := true;
            firstTtsChunk := true;
          } else {
            out := [];
          }
        case Binary(audio) =>
          if firstTtsChunk {
            shouldClear := false;
            firstTtsChunk := false;
          }
          if shouldClear {
            out := [];
          } else {
            out := [MediaOut(streamSid, audio)];
          }
      }
    }
  }
}
