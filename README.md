# Telephony ↔ voice-agent relay: the sequential cores

RingBot relays a phone call between a telephony media stream (Twilio) and a
conversational voice agent (Deepgram). Each call runs two receive loops that
hold real logic, and each loop exists in two versions, `server.py` and
`server2.py`:

- **Caller receive loop** (`twilio_receiver`). In both files, payloads of
  `media` events on the `inbound` track are appended to a byte buffer. After
  each event the loop cuts fixed 800-byte frames off the front (five 160-byte
  packets, 0.1 s of 8 kHz mu-law) and queues them for the agent. The
  remainder waits for the next event. The `start` event hands its stream id
  on to the other loop. `stop` ends the loop and drops the remainder.
- **Barge-in relay** (`sts_receiver`, `server.py`). Two flags,
  `should_clear` and `first_tts_chunk`. A `UserStartedSpeaking` control
  message sends `clear` to the caller. Agent audio chunks go to the caller
  as `media` messages.
- **Filler relay** (`sts_receiver`, `server2.py`). The module globals
  `bot_is_speaking` and `bot_thinking`, plus a per-call `filler_sent`. On a
  user transcript, while the bot is not speaking, it plays one pre-recorded
  filler clip per turn. `AgentAudioDone` resets all three flags. Every agent
  audio chunk marks the bot as speaking and is forwarded.

Messages are values (`Wire`): JSON has been parsed and base64 decoded. Each
loop is modelled twice:

- as a pure step function (`Receive`, `Relay`, `Hear`) with a fold over a
  message stream (`Run`, `RelayAll`, `HearAll`), about which the lemmas
  are proved;
- as a class whose fields are the loop's mutable state, with a `Step`
  method that handles one message, returns what the loop would send, and
  is proved to agree with the step function.

The 800-byte drain loop is identical in the two files, so it is defined
once: `Framing.DrainReady`, a `while` loop proved equal to the recursive
specification `Framing.Drain`.

Modules: `Wire` (`wire.dfy`), `Framing` (`framing.dfy`), `Server`
(`server.dfy`, for `server.py`), `Server2` (`server2.dfy`, for `server2.py`).

Behaviour of the code that the model keeps as written:

- **Nothing is ever dropped in `server.py`.** After a barge-in, the next
  audio chunk is the "first" chunk, and it resets `should_clear` before the
  drop check. So the drop at server.py:90-92 can never happen. The model
  keeps that branch as written, and `Server.NeverDrops` and
  `Server.RelayIsExpected` prove it unreachable. Every audio chunk is
  forwarded.
- **The filler is one message per turn.** It is played once, as a single
  message with the whole clip. It is neither paced, looped nor cancelled.
- **The globals are shared between calls.** `bot_is_speaking` and
  `bot_thinking` are module globals that a new call does not reset. The
  model makes them one `Server2.BotStatus` object shared by every
  `Server2.FillerRelay`. A call that ends while the bot is speaking leaves
  the next call unable to play a filler until that call's first
  `AgentAudioDone` (`Server2.NoFillerWhileSpeaking` applies to it). Calls
  can also overlap: connections are served concurrently, and `sts_sender`
  never returns, so a call's agent loop goes on reading after its caller
  hangs up. Another call's `AgentAudioDone` then clears `bot_is_speaking`
  in the middle of this call's turn. `Server2.OverlappingCalls` shows the
  result: a filler played after this call's own agent audio.
- **A message that fails to parse ends the loop.** In `server.py` the
  caller loop catches the error and breaks. In `server2.py` nothing catches
  it, so the exception ends the task. Both are modelled as the end of the
  loop with nothing further queued. The same holds for an agent text frame
  that is not a JSON object, and, in `server.py` only, for a control message
  without `"type"` (`decoded['type']` raises; `server2.py` uses `.get`).

## Model

| member | source | states |
|---|---|---|
| `Framing.DrainReady` | server.py:128-134 | The drain loop returns only 800-byte frames and a remainder below 800 bytes. The frames joined in order, followed by the remainder, are exactly the buffer it was given. It is proved equal to `Drain`. |
| `Framing.DrainSound` | server.py:128-134 | `Drain` cuts only whole frames, leaves less than a frame, and loses, repeats and reorders nothing. |
| `Framing.DrainUnique` | server.py:128-134 | Whole frames plus a short remainder can be cut from a buffer in only one way, and `Drain` finds it. |
| `Framing.FlushReady` | server.py:128-134 | The drain pass both servers' classes run after an event returns the new buffer and outputs of `Flush`. It queues exactly `Drain`'s frames, all whole, and keeps less than a frame, so frames plus remainder are the buffer. |
| `Framing.QueueExtend` | server.py:128-134 | Appending frames cut from a buffer to a queue of whole frames keeps it whole and keeps queue plus buffer equal to what was received. |
| `Framing.FlushKeepsBytes` | server.py:128-134 | The drain pass after an event queues exactly the buffer's ready frames, after what the event itself queued, and keeps less than a frame. |
| `Server.ReceiveKeepsBytes` | server.py:107-137 | One caller event queues only whole frames and leaves less than a frame. The queued frames plus the new remainder equal the old remainder plus the event's inbound bytes. The loop ends exactly on `stop` or a message that raised. |
| `Server.RunKeepsBytes` | server.py:107-137 | Over any stream of caller events, every frame queued is 800 bytes and the buffer stays below 800. All frames in order, followed by the remainder, equal all inbound-track payloads received, in order. |
| `Server.IgnoredEvents` | server.py:115-122 | A `media` event on a non-inbound track, or a `connected` event, leaves the buffer unchanged and queues nothing. |
| `Server.NothingAfterEnd` | server.py:124-137 | After `stop` or a failed message, nothing more is read. What was queued is what the earlier events queued, and the remainder is dropped, never sent as a short frame. |
| `Server.FivePacketSteps` | server.py:104-134 | From an empty buffer, four 160-byte inbound packets queue nothing. The fifth queues one 800-byte frame holding all five in order and empties the buffer. |
| `Server.FivePackets` | server.py:104-134 | The same five packets as one run of the receive loop: exactly that one frame, and an empty buffer. |
| `Server.InboundRelay.constructor` | server.py:104-105 | The loop starts with an empty buffer and nothing received or queued. |
| `Server.InboundRelay.Step` | server.py:107-137 | Handling one event keeps the buffer below a frame. It keeps all queued frames whole, and keeps queued frames plus buffer equal to all inbound bytes. The new buffer, the outputs and whether the loop goes on are those of `Receive`. |
| `Server.InboundRelay.DrainPass` | server.py:128-134 | The drain pass on the object's buffer adds exactly the ready frames to the queue and keeps the invariant. |
| `Server.RelayStep` | server.py:66-99 | One agent message keeps `should_clear ⇒ first_tts_chunk`. From such flags, `should_clear` is false at the drop check, so an audio chunk is always forwarded as one `media` message with its bytes and the stream id. |
| `Server.RelayIsExpected` | server.py:63-100 | The relay's output is exactly a stateless reference: one `clear` with the stream id per `UserStartedSpeaking`, every audio chunk as one `media` message in arrival order, nothing for other control messages. So no control message sends `media`. |
| `Server.NeverDrops` | server.py:82-99 | Whatever the agent sent before, an audio chunk reaching the drop check finds `should_clear` false and is forwarded. |
| `Server.BargeInRelay.constructor` | server.py:60-64 | The relay starts with the session's stream id, `should_clear` false and `first_tts_chunk` true. |
| `Server.BargeInRelay.Step` | server.py:66-100 | One agent message updates the two flags and returns what `Relay` sends, keeping the flag invariant. An audio chunk is always sent as one `media` message. |
| `Server2.SameAsServer` | server2.py:63-85 | While less than a frame is buffered, this loop handles every caller event as `server.py`'s loop does. `connected` falls through to a drain pass that finds nothing. |
| `Server2.RunSameAsServer` | server2.py:63-85 | From any buffer below a frame, whole runs of the two caller loops agree. |
| `Server2.RunKeepsBytes` | server2.py:59-85 | Over any stream of caller events: 800-byte frames only, remainder below 800, and frames in order plus remainder equal the inbound-track bytes received. |
| `Server2.IgnoredEvents` | server2.py:63-85 | A `media` event on a non-inbound track, a `connected` event or an unrecognised event leaves the buffer unchanged and queues nothing. |
| `Server2.InboundRelay.constructor` | server2.py:60-61 | The loop starts with an empty buffer. |
| `Server2.InboundRelay.Step` | server2.py:63-85 | One event keeps the frame invariant. Its buffer, outputs and continuation are those of `Receive`. |
| `Server2.InboundRelay.DrainPass` | server2.py:81-85 | The drain pass adds exactly the ready frames to the queue and keeps the invariant. |
| `Server2.BotStatus.constructor` | server2.py:14-15 | The globals start false when the module is loaded. |
| `Server2.FillerCondition` | server2.py:103-109 | The filler is played exactly on a user `ConversationText` while `bot_is_speaking` and `filler_sent` are false. After it, `filler_sent` and `bot_thinking` are set. If the file is missing, `filler_sent` is still set and nothing is sent. |
| `Server2.FillerIsWholeClip` | server2.py:17-33 | When the clip exists, the filler is a single `media` message with the stream id and the whole clip. |
| `Server2.HearOutput` | server2.py:103-129 | An audio chunk sets `bot_is_speaking` and is sent as one `media` message with the same bytes. A control message sends nothing but the filler, and only when it plays it. A user or assistant `ConversationText` sets `bot_thinking`. |
| `Server2.AudioDoneResets` | server2.py:114-118 | `AgentAudioDone` clears `bot_is_speaking`, `bot_thinking` and `filler_sent` and sends nothing. |
| `Server2.StickyFlags` | server2.py:103-129 | Only `AgentAudioDone` ever clears `filler_sent` or `bot_is_speaking`. |
| `Server2.OneFillerPerTurn` | server2.py:103-118 | Between two `AgentAudioDone` messages the filler is played at most once, and not at all if it has already been played this turn. |
| `Server2.NoFillerWhileSpeaking` | server2.py:103-129 | Once the bot is speaking, no filler is played until the next `AgentAudioDone`. The output is then exactly the agent audio in order, each chunk once with the stream id. |
| `Server2.MissingClipOnlyAudio` | server2.py:17-21 | With the filler file missing, the relay sends exactly the agent audio, in order, from any flags. |
| `Server2.FillerRelay.constructor` | server2.py:92-95 | A new relay has the session's stream id, shares the globals without resetting them, and starts with `filler_sent` false. |
| `Server2.FillerRelay.Step` | server2.py:97-129 | One agent message updates the globals and `filler_sent`, and sends, exactly as `Hear` says. |
| `Server2.OverlappingCalls` | server2.py:103-121 | Two calls sharing the globals: A forwards an audio chunk, B's `AgentAudioDone` clears `bot_is_speaking`, and a user transcript then makes A send the whole filler clip after its own audio. |

## Left out

- WebSocket serving, routing and connecting (`router`, `main`, `sts_connect`) and the API-key lookup: network plumbing and a foreign library.
- The `asyncio.Queue` hand-offs and `asyncio.wait`: each loop is modelled on its own, sequentially. What the caller loop puts on its queues is returned as outputs: `Frame` for the audio queue, `StreamSid` for the stream-id queue. The agent loops take the stream id as a constructor argument.
- `sts_sender`, which forwards each queued frame to the agent unchanged: nothing to model beyond the queue's order, which the outputs keep.
- The per-message `async for` / `while True` driving loops exist only as the pure folds `Run`, `RelayAll` and `HearAll`. No imperative method runs a message stream; the `Step` method is the loop body.
- Reading the configuration and prompt files and sending the initial configuration, and closing the caller socket (server.py:40-49, server.py:147, server2.py:49-57): file and network I/O.
- Reading the filler file: its contents are an argument (`None` when the file is missing). `Step` takes the contents as they are at each message. The run-level lemmas hold them fixed over the stretch of messages they cover.
- JSON parsing and base64 (RFC 4648, section 4): library calls. The model works on decoded values, and every parse or lookup failure is one `Malformed` or `Garbled` message.
- `time.time()` timestamps, the globals `last_user_chunk_ts` and `tts_start_ts`, and the latency gap: floating-point wall-clock values used only for logging.
- All `print` logging.
- `fillers.py`: a batch job that posts phrases to a text-to-speech HTTP API and writes the responses to disk.
- How an exception in `server2.py` propagates out of its task and leaves the other tasks running: only its effect on the loop that raised it, which stops reading, is modelled.
- Server2.NoFillerWhileSpeaking: this lemma and the other run-level filler lemmas (`Server2.OneFillerPerTurn`, `Server2.MissingClipOnlyAudio`), together with `HearAll`, describe one call whose globals nothing else changes. Overlapping calls interleave their updates to `bot_is_speaking`, and the model shows this only through the one scenario `Server2.OverlappingCalls`.
