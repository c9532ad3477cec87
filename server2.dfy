/** server2.py: the caller receive loop (`twilio_receiver`), the agent
    receive loop that plays a filler clip after the caller speaks
    (`sts_receiver`), and the filler message (`play_filler_to_twilio`). */
module Server2 {
  import opened Wire
  import opened Framing
  import Server

  // ---------------------------------------------------------------------
  // twilio_receiver: caller audio into 800-byte frames for the agent
  // ---------------------------------------------------------------------

  /** One caller event. Unlike server.py there is no `connected` branch: that
      event, like any other, falls through to the drain pass. `stop` ends the
      loop, and so does a message that raises, since nothing catches it. */
  function Receive(inbuffer: Bytes, e: CallerEvent): (h: Handled)
  {
    match e
    case Start(sid) => Flush(inbuffer, [StreamSid(sid)])
    case Media(track, payload) =>
      Flush(if track == "inbound" then inbuffer + payload else inbuffer, [])
    case Stop => Handled(inbuffer, [], false)
    case Malformed => Handled(inbuffer, [], false)
    case Connected => Flush(inbuffer, [])
    case Unrecognised => Flush(inbuffer, [])
  }

  /** The `async for` loop over a stream of caller events, from a buffer. */
  function Run(inbuffer: Bytes, events: seq<CallerEvent>): (r: Handled)
    decreases |events|
  {
    if events == [] then Handled(inbuffer, [], true)
    else
      var h := Receive(inbuffer, events[0]);
      if !h.listening then h
      else
        var t := Run(h.inbuffer, events[1..]);
        Handled(t.inbuffer, h.out + t.out, t.listening)
  }

  /** While less than a frame is buffered, the two servers' caller loops
      behave the same on every event: the drain pass server2.py runs after
      `connected` finds nothing to cut. */
  lemma SameAsServer(inbuffer: Bytes, e: CallerEvent)
    requires |inbuffer| < BufferSize
    ensures Receive(inbuffer, e) == Server.Receive(inbuffer, e)
  {
    if e.Connected? {
      assert Drain(inbuffer) == Split([], inbuffer);
      assert [] + AsFrames([]) == [];
    }
  }

  /** Hence whole runs agree too, from any buffer below a frame. */
  lemma {:induction false} RunSameAsServer(inbuffer: Bytes, events: seq<CallerEvent>)
    requires |inbuffer| < BufferSize
    ensures Run(inbuffer, events) == Server.Run(inbuffer, events)
    decreases |events|
  {
    if events != [] {
      SameAsServer(inbuffer, events[0]);
      Server.ReceiveKeepsBytes(inbuffer, events[0]);
      var h := Receive(inbuffer, events[0]);
      if h.listening {
        RunSameAsServer(h.inbuffer, events[1..]);
      }
    }
  }

  /** Over any stream of caller events: every queued frame is 800 bytes, the
      buffer ends below 800, and the frames joined in order followed by the
      remainder are exactly the inbound audio received. */
  lemma RunKeepsBytes(inbuffer: Bytes, events: seq<CallerEvent>)
    requires |inbuffer| < BufferSize
    ensures var r := Run(inbuffer, events);
      && AllFull(FramesOf(r.out))
      && |r.inbuffer| < BufferSize
      && Flatten(FramesOf(r.out)) + r.inbuffer == inbuffer + InboundBytes(events)
  {
    RunSameAsServer(inbuffer, events);
    Server.RunKeepsBytes(inbuffer, events);
  }

  /** A `media` event on another track, a `connected` event or an
      unrecognised one leaves the buffer as it was and queues nothing. */
  lemma IgnoredEvents(inbuffer: Bytes, e: CallerEvent)
    requires |inbuffer| < BufferSize
    requires e.Connected? || e.Unrecognised? || (e.Media? && e.track != "inbound")
    ensures Receive(inbuffer, e) == Handled(inbuffer, [], true)
  {
    assert Drain(inbuffer) == Split([], inbuffer);
    assert [] + AsFrames([]) == [];
  }

  /** twilio_receiver as a class, as in server.py. */
  class InboundRelay {
    var inbuffer: Bytes
    var listening: bool
    ghost var inbound: Bytes
    ghost var queued: seq<Bytes>

    ghost predicate Valid()
      reads this
    {
      && |inbuffer| < BufferSize
      && AllFull(queued)
      && Flatten(queued) + inbuffer == inbound
    }

    constructor ()
      ensures Valid() && listening
      ensures inbuffer == [] && inbound == [] && queued == []
    {
      inbuffer, listening := [], true;
      inbound, queued := [], [];
    }

    /** Handle one caller message and return what it queues. */
    method Step(e: CallerEvent) returns (out: seq<Output>)
      requires Valid() && listening
      modifies this
      ensures Valid()
      ensures Receive(old(inbuffer), e) == Handled(inbuffer, out, listening)
      ensures inbound == old(inbound) + InboundPayload(e)
      ensures queued == old(queued) + FramesOf(out)
    {
      match e {
        case Start(sid) =>
          out := DrainPass([StreamSid(sid)]);
        case Media(track, payload) =>
          if track == "inbound" {
            inbuffer := inbuffer + payload;
            inbound := inbound + payload;
          }
          out := DrainPass([]);
        case Stop =>
          listening := false;
          out := [];
          assert FramesOf(out) == [];
        case Malformed =>
          listening := false;
          out := [];
          assert FramesOf(out) == [];
        case Connected =>
          out := DrainPass([]);
        case Unrecognised =>
          out := DrainPass([]);
      }
    }

    /** The drain pass after a handled message (server2.py:81-85). */
    method DrainPass(before: seq<Output>) returns (out: seq<Output>)
      requires FramesOf(before) == []
      requires AllFull(queued) && Flatten(queued) + inbuffer == inbound
      modifies this
      ensures Valid() && listening == old(listening) && inbound == old(inbound)
      ensures Flush(old(inbuffer), before) == Handled(inbuffer, out, true)
      ensures queued == old(queued) + FramesOf(out)
    {
      var rest;
      out, rest := FlushReady(inbuffer, before);
      QueueExtend(queued, FramesOf(out), rest, inbuffer);
      inbuffer := rest;
      queued := queued + FramesOf(out);
    }
  }

  // ---------------------------------------------------------------------
  // sts_receiver: agent audio back to the caller, a filler clip per turn
  // ---------------------------------------------------------------------

  /** The module globals `bot_is_speaking` and `bot_thinking`: one object for
      the whole process, so what one call leaves in them the next call sees. */
  class BotStatus {
    var botIsSpeaking: bool
    var botThinking: bool

    /** The values at import time (server2.py:14-15). */
    constructor ()
      ensures !botIsSpeaking && !botThinking
    {
      botIsSpeaking, botThinking := false, false;
    }
  }

  /** The two globals and the receive loop's local `filler_sent`. */
  datatype Turn = Turn(botIsSpeaking: bool, botThinking: bool, fillerSent: bool)

  /** What one agent message does: the new flags, what goes to the caller,
      whether `play_filler_to_twilio` was called, and whether the loop goes on. */
  datatype Heard = Heard(turn: Turn, out: seq<Output>, filler: bool, listening: bool)

  /** A transcript of the caller's own speech. */
  predicate IsUserText(m: AgentMessage)
  {
    m.Control? && m.kind == Some("ConversationText") && m.role == Some("user")
  }

  /** The agent's signal that it has finished sending the audio of a turn. */
  predicate IsAudioDone(m: AgentMessage)
  {
    m.Control? && m.kind == Some("AgentAudioDone")
  }

  /** play_filler_to_twilio: with the clip present, one `media` message that
      carries all of it; with the file missing, nothing. */
  function FillerMessage(sid: string, asset: Option<Bytes>): (out: seq<Output>)
  {
    match asset
    case None => []
    case Some(data) => [MediaOut(sid, data)]
  }

  /** One agent message. A user `ConversationText` sets `bot_thinking` and,
      only while the bot is not speaking and no filler went out this turn,
      plays the filler and sets `filler_sent` (also when the file is missing);
      an assistant `ConversationText` sets `bot_thinking`; `AgentAudioDone`
      clears all three flags; any other control message does nothing; an
      audio chunk sets `bot_is_speaking` and is sent as `media`; a text frame
      that is not a JSON object raises and ends the loop. */
  function Hear(t: Turn, sid: string, m: AgentMessage, asset: Option<Bytes>): (h: Heard)
  {
    match m
    case Garbled => Heard(t, [], false, false)
    case Control(kind, role) =>
      if kind == Some("ConversationText") then
        if role == Some("user") then
          if !t.botIsSpeaking && !t.fillerSent then
            Heard(Turn(t.botIsSpeaking, true, true), FillerMessage(sid, asset), true, true)
          else
            Heard(t.(botThinking := true), [], false, true)
        else if role == Some("assistant") then
          Heard(t.(botThinking := true), [], false, true)
        else
          Heard(t, [], false, true)
      else if kind == Some("AgentAudioDone") then
        Heard(Turn(false, false, false), [], false, true)
      else
        Heard(t, [], false, true)
    case Binary(audio) =>
      Heard(t.(botIsSpeaking := true), [MediaOut(sid, audio)], false, true)
  }

  /** A stretch of the receive loop: final flags, everything sent, how many
      times the filler was played, and whether the loop is still running. */
  datatype Session = Session(turn: Turn, out: seq<Output>, fillers: nat, listening: bool)

  /** The `while True` loop over a stream of agent messages, with the filler
      file's contents fixed for the stretch. */
  function HearAll(t: Turn, sid: string, msgs: seq<AgentMessage>, asset: Option<Bytes>): (s: Session)
    decreases |msgs|
  {
    if msgs == [] then Session(t, [], 0, true)
    else
      var h := Hear(t, sid, msgs[0], asset);
      if !h.listening then Session(h.turn, h.out, 0, false)
      else
        var s := HearAll(h.turn, sid, msgs[1..], asset);
        Session(s.turn, h.out + s.out, (if h.filler then 1 else 0) + s.fillers, s.listening)
  }

  /** The agent audio of a stream of messages as `media` messages, in order,
      up to a message that ends the loop. */
  function AudioOf(sid: string, msgs: seq<AgentMessage>): (out: seq<Output>)
  {
    if msgs == [] || msgs[0].Garbled? then []
    else (if msgs[0].Binary? then [MediaOut(sid, msgs[0].audio)] else []) + AudioOf(sid, msgs[1..])
  }

  predicate NoAudioDone(msgs: seq<AgentMessage>)
  {
    forall i :: 0 <= i < |msgs| ==> !IsAudioDone(msgs[i])
  }

  /** The filler is played exactly on a user transcript that finds the bot
      not speaking and no filler sent this turn; it then sets `filler_sent`
      and `bot_thinking` and sends the filler message, which is nothing when
      the file is missing. */
  lemma FillerCondition(t: Turn, sid: string, m: AgentMessage, asset: Option<Bytes>)
    ensures var h := Hear(t, sid, m, asset);
      h.filler <==> IsUserText(m) && !t.botIsSpeaking && !t.fillerSent
    ensures var h := Hear(t, sid, m, asset);
      h.filler ==> h.turn.fillerSent && h.turn.botThinking && h.out == FillerMessage(sid, asset)
    ensures var h := Hear(t, sid, m, asset);
      h.filler && asset.None? ==> h.out == [] && h.turn.fillerSent
  {
  }

  /** The filler, when the file is present, goes out as one `media` message
      with the stream id and the whole clip. */
  lemma FillerIsWholeClip(t: Turn, sid: string, m: AgentMessage, data: Bytes)
    requires Hear(t, sid, m, Some(data)).filler
    ensures Hear(t, sid, m, Some(data)).out == [MediaOut(sid, data)]
  {
  }

  /** What one message sends: an audio chunk as one `media` message with the
      same bytes and the stream id; a control message nothing but the
      filler, and only when it plays it. */
  lemma HearOutput(t: Turn, sid: string, m: AgentMessage, asset: Option<Bytes>)
    ensures var h := Hear(t, sid, m, asset);
      h.out == if m.Binary? then [MediaOut(sid, m.audio)]
               else if h.filler then FillerMessage(sid, asset)
               else []
    ensures m.Binary? ==> Hear(t, sid, m, asset).turn.botIsSpeaking
    ensures m.Control? && m.kind == Some("ConversationText") && (m.role == Some("user") || m.role == Some("assistant"))
            ==> Hear(t, sid, m, asset).turn.botThinking
  {
  }

  /** `AgentAudioDone` clears `bot_is_speaking`, `bot_thinking` and
      `filler_sent`, whatever they were, and sends nothing. */
  lemma AudioDoneResets(t: Turn, sid: string, role: Option<string>, asset: Option<Bytes>)
    ensures Hear(t, sid, Control(Some("AgentAudioDone"), role), asset)
         == Heard(Turn(false, false, false), [], false, true)
  {
  }

  /** Without an `AgentAudioDone`, `filler_sent` and `bot_is_speaking` once
      set stay set. */
  lemma StickyFlags(t: Turn, sid: string, m: AgentMessage, asset: Option<Bytes>)
    requires !IsAudioDone(m)
    ensures t.fillerSent ==> Hear(t, sid, m, asset).turn.fillerSent
    ensures t.botIsSpeaking ==> Hear(t, sid, m, asset).turn.botIsSpeaking
  {
  }

  /** Between two `AgentAudioDone` messages the filler is played at most
      once, and not at all if it was already played this turn. */
  lemma {:induction false} OneFillerPerTurn(t: Turn, sid: string, msgs: seq<AgentMessage>, asset: Option<Bytes>)
    requires NoAudioDone(msgs)
    ensures HearAll(t, sid, msgs, asset).fillers <= 1
    ensures t.fillerSent ==> HearAll(t, sid, msgs, asset).fillers == 0
    decreases |msgs|
  {
    if msgs != [] {
      var h := Hear(t, sid, msgs[0], asset);
      FillerCondition(t, sid, msgs[0], asset);
      StickyFlags(t, sid, msgs[0], asset);
      if h.listening {
        assert NoAudioDone(msgs[1..]) by {
          forall i | 0 <= i < |msgs[1..]| ensures !IsAudioDone(msgs[1..][i]) {
            assert msgs[1..][i] == msgs[i + 1];
          }
        }
        OneFillerPerTurn(h.turn, sid, msgs[1..], asset);
      }
    }
  }

  /** Once the bot is speaking (after any audio chunk), no filler is played
      until the next `AgentAudioDone`, and what goes to the caller is exactly
      the agent audio, in order, each chunk once with the stream id. */
  lemma {:induction false} NoFillerWhileSpeaking(t: Turn, sid: string, msgs: seq<AgentMessage>, asset: Option<Bytes>)
    requires t.botIsSpeaking && NoAudioDone(msgs)
    ensures HearAll(t, sid, msgs, asset).fillers == 0
    ensures HearAll(t, sid, msgs, asset).out == AudioOf(sid, msgs)
    ensures HearAll(t, sid, msgs, asset).turn.botIsSpeaking
    decreases |msgs|
  {
    if msgs != [] {
      var h := Hear(t, sid, msgs[0], asset);
      FillerCondition(t, sid, msgs[0], asset);
      StickyFlags(t, sid, msgs[0], asset);
      HearOutput(t, sid, msgs[0], asset);
      if h.listening {
        assert NoAudioDone(msgs[1..]) by {
          forall i | 0 <= i < |msgs[1..]| ensures !IsAudioDone(msgs[1..][i]) {
            assert msgs[1..][i] == msgs[i + 1];
          }
        }
        NoFillerWhileSpeaking(h.turn, sid, msgs[1..], asset);
      }
    }
  }

  /** With the filler file missing, the relay sends exactly the agent audio,
      in order, from any flags: a filler turn only sets `filler_sent`. */
  lemma {:induction false} MissingClipOnlyAudio(t: Turn, sid: string, msgs: seq<AgentMessage>)
    ensures HearAll(t, sid, msgs, None).out == AudioOf(sid, msgs)
    decreases |msgs|
  {
    if msgs != [] {
      var h := Hear(t, sid, msgs[0], None);
      HearOutput(t, sid, msgs[0], None);
      if h.listening {
        MissingClipOnlyAudio(h.turn, sid, msgs[1..]);
      }
    }
  }

  /** sts_receiver as a class: the stream id from the hand-off queue, the
      shared globals, the local `filler_sent`, and whether the loop runs.
      A new call does not reset the globals: it starts from whatever the
      previous call left in them. */
  class FillerRelay {
    const streamSid: string
    const status: BotStatus
    var fillerSent: bool
    var listening: bool

    constructor (sid: string, globals: BotStatus)
      ensures streamSid == sid && status == globals
      ensures !fillerSent && listening
    {
      streamSid, status := sid, globals;
      fillerSent, listening := false, true;
    }

    /** The two globals and `filler_sent`, as the step function reads them. */
    function State(): (t: Turn)
      reads this, status
    {
      Turn(status.botIsSpeaking, status.botThinking, fillerSent)
    }

    /** Handle one agent message, with `asset` the filler file's contents at
      that moment (None when it is missing), and return what goes to the
      caller. */
    method Step(m: AgentMessage, asset: Option<Bytes>) returns (out: seq<Output>)
      requires listening
      modifies this, status
      ensures var h := Hear(old(State()), streamSid, m, asset);
        h.turn == State() && h.out == out && h.listening == listening
    {
      out := [];
      match m {
        case Garbled =>
          listening := false;
        case Control(kind, role) =>
          if kind == Some("ConversationText") {
            if role == Some("user") {
              status.botThinking := true;
              if !status.botIsSpeaking && !fillerSent {
                out := FillerMessage(streamSid, asset);
                fillerSent := true;
              }
            } else if role == Some("assistant") {
              status.botThinking := true;
            }
          }
          if kind == Some("AgentAudioDone") {
            status.botIsSpeaking := false;
            status.botThinking := false;
            fillerSent := false;
          }
        case Binary(audio) =>
          status.botIsSpeaking := true;
          out := [MediaOut(streamSid, audio)];
      }
    }
  }

  /** Two calls overlapping on the shared globals: call A forwards an audio
      chunk, which sets `bot_is_speaking`; call B's `AgentAudioDone` clears
      it; and then a user transcript makes A play the filler, although A's
      own agent has not finished. `NoFillerWhileSpeaking` describes a call
      that has the globals to itself, and this is why it needs to. */
  method OverlappingCalls(chunk: Bytes, clip: Bytes) returns (spoken: seq<Output>, filler: seq<Output>)
    ensures spoken == [MediaOut("A", chunk)]
    ensures filler == [MediaOut("A", clip)]
  {
    var globals := new BotStatus();
    var a := new FillerRelay("A", globals);
    var b := new FillerRelay("B", globals);
    spoken := a.Step(Binary(chunk), Some(clip));
    var done := b.Step(Control(Some("AgentAudioDone"), None), Some(clip));
    filler := a.Step(Control(Some("ConversationText"), Some("user")), Some(clip));
  }
}
