/** The inbound frame buffer shared by both servers' caller receive loops:
    inbound-track audio accumulates in a buffer, and after every message the
    buffer is cut into fixed 800-byte frames for the agent; the remainder
    waits for the next message. */
module Framing {
  import opened Wire

  /** Bytes per frame sent to the agent: five 160-byte packets, 0.1 s of 8 kHz mu-law. */
  const BufferSize: nat := 5 * 160

  /** The chunks joined end to end, in order. */
  function Flatten(chunks: seq<Bytes>): (joined: Bytes)
  {
    if chunks == [] then [] else chunks[0] + Flatten(chunks[1..])
  }

  lemma {:induction false} FlattenAppend(a: seq<Bytes>, b: seq<Bytes>)
    ensures Flatten(a + b) == Flatten(a) + Flatten(b)
  {
    if a == [] {
      assert a + b == b;
    } else {
      assert (a + b)[0] == a[0];
      assert (a + b)[1..] == a[1..] + b;
      FlattenAppend(a[1..], b);
    }
  }

  /** Every chunk is a whole frame. */
  predicate AllFull(chunks: seq<Bytes>)
  {
    chunks == [] || (|chunks[0]| == BufferSize && AllFull(chunks[1..]))
  }

  /** AllFull says of each chunk, by position, that it is a whole frame. */
  lemma {:induction false} AllFullAt(chunks: seq<Bytes>, i: nat)
    requires AllFull(chunks) && i < |chunks|
    ensures |chunks[i]| == BufferSize
  {
    if i > 0 {
      AllFullAt(chunks[1..], i - 1);
    }
  }

  lemma {:induction false} AllFullAppend(a: seq<Bytes>, b: seq<Bytes>)
    requires AllFull(a) && AllFull(b)
    ensures AllFull(a + b)
  {
    if a == [] {
      assert a + b == b;
    } else {
      assert (a + b)[0] == a[0];
      assert (a + b)[1..] == a[1..] + b;
      AllFullAppend(a[1..], b);
    }
  }

  datatype Split = Split(frames: seq<Bytes>, rest: Bytes)

  /** The ready frames of a buffer, front first, and the remainder left behind. */
  function Drain(buf: Bytes): (s: Split)
    decreases |buf|
  {
    if |buf| < BufferSize then Split([], buf)
    else
      var tail := Drain(buf[BufferSize..]);
      Split([buf[..BufferSize]] + tail.frames, tail.rest)
  }

  /** Draining cuts only whole frames, leaves less than a frame, and loses,
      repeats or reorders nothing: frames then remainder are the buffer. */
  lemma {:induction false} DrainSound(buf: Bytes)
    ensures AllFull(Drain(buf).frames)
    ensures |Drain(buf).rest| < BufferSize
    ensures Flatten(Drain(buf).frames) + Drain(buf).rest == buf
    decreases |buf|
  {
    if |buf| >= BufferSize {
      var tail := Drain(buf[BufferSize..]);
      DrainSound(buf[BufferSize..]);
      var frames := [buf[..BufferSize]] + tail.frames;
      assert frames[0] == buf[..BufferSize] && frames[1..] == tail.frames;
      assert buf == buf[..BufferSize] + buf[BufferSize..];
    }
  }

  /** Any split of a buffer into whole frames followed by a remainder shorter
      than a frame is Drain's: there is only one such split. */
  lemma {:induction false} DrainUnique(frames: seq<Bytes>, rest: Bytes)
    requires AllFull(frames) && |rest| < BufferSize
    ensures Drain(Flatten(frames) + rest) == Split(frames, rest)
  {
    var buf := Flatten(frames) + rest;
    if frames != [] {
      assert buf == frames[0] + (Flatten(frames[1..]) + rest);
      assert buf[..BufferSize] == frames[0];
      assert buf[BufferSize..] == Flatten(frames[1..]) + rest;
      DrainUnique(frames[1..], rest);
      assert [frames[0]] + frames[1..] == frames;
    }
  }

  /** The `while len(inbuffer) >= BUFFER_SIZE` loop: cut a frame off the
      front and re-slice the buffer until less than a frame is left. */
  method DrainReady(inbuffer: Bytes) returns (frames: seq<Bytes>, rest: Bytes)
    ensures AllFull(frames) && |rest| < BufferSize
    ensures Flatten(frames) + rest == inbuffer
    ensures Split(frames, rest) == Drain(inbuffer)
  {
    frames, rest := [], inbuffer;
    while |rest| >= BufferSize
      invariant Drain(inbuffer) == Split(frames + Drain(rest).frames, Drain(rest).rest)
      decreases |rest|
    {
      var chunk := rest[..BufferSize];
      assert Drain(rest).frames == [chunk] + Drain(rest[BufferSize..]).frames;
      assert frames + ([chunk] + Drain(rest[BufferSize..]).frames)
          == (frames + [chunk]) + Drain(rest[BufferSize..]).frames;
      frames := frames + [chunk];
      rest := rest[BufferSize..];
    }
    assert Drain(rest) == Split([], rest);
    assert frames + [] == frames;
    DrainSound(inbuffer);
  }

  /** The bytes one caller event adds to the buffer: the payload of an
      inbound-track media event, nothing for any other event. */
  function InboundPayload(e: CallerEvent): (payload: Bytes)
  {
    if e.Media? && e.track == "inbound" then e.payload else []
  }

  /** All inbound-track audio a receive loop takes in from a stream of caller
      events; it reads nothing after a stop or a malformed message. */
  function InboundBytes(events: seq<CallerEvent>): (received: Bytes)
  {
    if events == [] || EndsReceive(events[0]) then []
    else InboundPayload(events[0]) + InboundBytes(events[1..])
  }

  /** The frames put on the agent queue, one Frame output each. */
  function AsFrames(chunks: seq<Bytes>): (out: seq<Output>)
  {
    if chunks == [] then [] else [Frame(chunks[0])] + AsFrames(chunks[1..])
  }

  /** The frames among some outputs, in order. */
  function FramesOf(out: seq<Output>): (frames: seq<Bytes>)
  {
    if out == [] then []
    else (if out[0].Frame? then [out[0].audio] else []) + FramesOf(out[1..])
  }

  lemma {:induction false} FramesOfAppend(a: seq<Output>, b: seq<Output>)
    ensures FramesOf(a + b) == FramesOf(a) + FramesOf(b)
  {
    if a == [] {
      assert a + b == b;
    } else {
      assert (a + b)[0] == a[0];
      assert (a + b)[1..] == a[1..] + b;
      FramesOfAppend(a[1..], b);
    }
  }

  lemma {:induction false} FramesOfAsFrames(chunks: seq<Bytes>)
    ensures FramesOf(AsFrames(chunks)) == chunks
  {
    if chunks != [] {
      var out := AsFrames(chunks);
      assert out[0] == Frame(chunks[0]) && out[1..] == AsFrames(chunks[1..]);
      FramesOfAsFrames(chunks[1..]);
      assert [chunks[0]] + chunks[1..] == chunks;
    }
  }

  /** What a caller receive loop does with one event: its new buffer, what it
      queues, and whether it reads another event. */
  datatype Handled = Handled(inbuffer: Bytes, out: seq<Output>, listening: bool)

  /** The drain pass that ends a handled event: `before` is what the event
      itself queued, the ready frames of `buf` follow it. */
  function Flush(buf: Bytes, before: seq<Output>): (h: Handled)
  {
    var s := Drain(buf);
    Handled(s.rest, before + AsFrames(s.frames), true)
  }

  /** A flush after outputs that hold no frame queues exactly the frames of
      the buffer, and keeps the rest. */
  lemma FlushKeepsBytes(buf: Bytes, before: seq<Output>)
    requires FramesOf(before) == []
    ensures var h := Flush(buf, before);
      && FramesOf(h.out) == Drain(buf).frames
      && AllFull(FramesOf(h.out))
      && |h.inbuffer| < BufferSize
      && Flatten(FramesOf(h.out)) + h.inbuffer == buf
  {
    var s := Drain(buf);
    DrainSound(buf);
    FramesOfAppend(before, AsFrames(s.frames));
    FramesOfAsFrames(s.frames);
  }

  /** The drain pass that closes every handled event in both servers: run the
      drain loop on the buffer and queue the ready frames after what the
      event itself queued. */
  method FlushReady(buf: Bytes, before: seq<Output>) returns (out: seq<Output>, rest: Bytes)
    requires FramesOf(before) == []
    ensures Flush(buf, before) == Handled(rest, out, true)
    ensures FramesOf(out) == Drain(buf).frames
    ensures AllFull(FramesOf(out)) && |rest| < BufferSize
    ensures Flatten(FramesOf(out)) + rest == buf
  {
    var frames;
    frames, rest := DrainReady(buf);
    out := before + AsFrames(frames);
    FlushKeepsBytes(buf, before);
  }

  /** Frames cut from a buffer extend a queue of whole frames: the longer
      queue is still whole frames, and with the new remainder it holds what
      the shorter queue held with the old buffer. */
  lemma QueueExtend(queued: seq<Bytes>, frames: seq<Bytes>, rest: Bytes, buf: Bytes)
    requires AllFull(queued) && AllFull(frames)
    requires Flatten(frames) + rest == buf
    ensures AllFull(queued + frames)
    ensures Flatten(queued + frames) + rest == Flatten(queued) + buf
  {
    FlattenAppend(queued, frames);
    AllFullAppend(queued, frames);
    assert Flatten(queued + frames) + rest == Flatten(queued) + (Flatten(frames) + rest);
  }

  /** Two handled stretches of input, one after the other: if each queued
      whole frames that with its remainder make up what it was given, so do
      both together. */
  lemma Compose(inbuffer: Bytes, first: Handled, second: Handled, inFirst: Bytes, inSecond: Bytes)
    requires AllFull(FramesOf(first.out))
    requires Flatten(FramesOf(first.out)) + first.inbuffer == inbuffer + inFirst
    requires AllFull(FramesOf(second.out))
    requires Flatten(FramesOf(second.out)) + second.inbuffer == first.inbuffer + inSecond
    ensures AllFull(FramesOf(first.out + second.out))
    ensures Flatten(FramesOf(first.out + second.out)) + second.inbuffer == inbuffer + (inFirst + inSecond)
  {
    var f1, f2 := FramesOf(first.out), FramesOf(second.out);
    FramesOfAppend(first.out, second.out);
    AllFullAppend(f1, f2);
    FlattenAppend(f1, f2);
    calc {
      Flatten(f1 + f2) + second.inbuffer;
      Flatten(f1) + (Flatten(f2) + second.inbuffer);
      Flatten(f1) + (first.inbuffer + inSecond);
      (Flatten(f1) + first.inbuffer) + inSecond;
      inbuffer + (inFirst + inSecond);
    }
  }
}
