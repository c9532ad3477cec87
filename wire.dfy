/** The messages the relay reads and sends, as values: JSON has been parsed and
    base64 payloads decoded before a message reaches the model. */
module Wire {

  /** One octet of 8 kHz mu-law audio. */
  newtype byte = x: int | 0 <= x < 0x100

  type Bytes = seq<byte>

  datatype Option<+T> = None | Some(value: T)

  /** A message read from the telephony (Twilio) WebSocket. */
  datatype CallerEvent =
    | Start(streamSid: string)              // "event": "start", carrying start.streamSid
    | Connected                             // "event": "connected"
    | Media(track: string, payload: Bytes)  // "event": "media", payload already decoded
    | Stop                                  // "event": "stop"
    | Unrecognised                          // any other "event" value, or none at all
    | Malformed                             // not JSON, or a field the handler reads is missing or undecodable

  /** A message read from the voice-agent WebSocket. */
  datatype AgentMessage =
    | Control(kind: Option<string>, role: Option<string>)  // a text frame: a JSON object, its "type" and "role" if present
    | Binary(audio: Bytes)                                  // a binary frame of synthesized speech
    | Garbled                                               // a text frame that is not a JSON object

  /** What a receive loop sends or hands on. */
  datatype Output =
    | StreamSid(sid: string)                     // put on the stream-id hand-off queue
    | Frame(audio: Bytes)                        // put on the queue of caller audio bound for the agent
    | Clear(streamSid: string)                   // {"event": "clear", "streamSid": ...} to the caller
    | MediaOut(streamSid: string, audio: Bytes)  // {"event": "media", "streamSid": ..., "media": {"payload": ...}} to the caller

  /** A caller event after which the receive loop reads nothing more. */
  predicate EndsReceive(e: CallerEvent)
  {
    e.Stop? || e.Malformed?
  }
}
