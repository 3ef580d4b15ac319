/**
  The handler that turns input buffers into messages.

  `Decode` is the intended reading of a buffer: receive, deliver, go on after the frame.
  `Loop` is the loop as the source has it, which keeps the length of the last frame as the
  offset of the next. It reads its input in order exactly when a call completes at most one
  frame, and then the two agree; WebSocketOutcome says when they agree at all.
 */
module WebSocketHandler {
  import opened Prelude
  import opened WebSocketFrame
  import opened WebSocketFraming

  datatype Message = Message(flags: byte, payload: seq<byte>)

  datatype Decoding = Decoding(messages: seq<Message>, state: State, aborted: bool)

  function MessageOf(s: State): Message {
    Message(s.flags, s.payload)
  }

  /** After delivery two fields are cleared; the rest of the record stays as the frame left it. */
  function Delivered(s: State): (t: State)
    requires Valid(s) && s.readingState == 0
    ensures Valid(t) && t.readingState == 0
  {
    s.(flags := 0, lenByte := 0)
  }

  function Decode(s: State, buffer: seq<byte>): (d: Decoding)
    requires Valid(s)
    ensures Valid(d.state)
    decreases |buffer|
  {
    var r := Receive(s, buffer);
    if r.status != Done then
      Decoding([], r.state, r.status == Abort)
    else
      var d := Decode(Delivered(r.state), buffer[r.used..]);
      d.(messages := [MessageOf(r.state)] + d.messages)
  }

  lemma {:induction false} MoreIsInside(s: State, buffer: seq<byte>)
    requires Valid(s) && Feed(s, buffer).status == More && (buffer != [] || s.readingState != 0)
    ensures Feed(s, buffer).state.readingState != 0
    decreases |buffer|, 5 - s.readingState
  {
    if buffer != [] {
      var t := Iterate(s, buffer[0]);
      MoreIsInside(t.state, buffer[t.used..]);
    }
  }

  /** Whenever a buffer ends between two frames, the record has neither flags nor a length byte. */
  lemma {:induction false} IdleIsCleared(s: State, buffer: seq<byte>)
    requires Valid(s) && buffer != [] && !Decode(s, buffer).aborted && Decode(s, buffer).state.readingState == 0
    ensures Decode(s, buffer).state.flags == 0 && Decode(s, buffer).state.lenByte == 0
    decreases |buffer|
  {
    hide Receive;
    var r := Receive(s, buffer);
    if r.status == Done && r.used < |buffer| {
      IdleIsCleared(Delivered(r.state), buffer[r.used..]);
    } else if r.status == Done {
      EmptyInput(Delivered(r.state));
      assert buffer[r.used..] == [];
    } else {
      ReceivedInside(s, buffer);
    }
  }

  lemma ReceivedInside(s: State, buffer: seq<byte>)
    requires Valid(s) && buffer != [] && Receive(s, buffer).status == More
    ensures Receive(s, buffer).state.readingState != 0
  {
    MoreIsInside(s, buffer);
  }

  // ---- The loop as written ----

  datatype Read = Read(start: nat, used: nat)

  datatype Config =
    | Looping(state: State, offset: nat, messages: seq<Message>, segments: seq<Read>)
    | Returned(state: State, messages: seq<Message>, segments: seq<Read>, aborted: bool)

  ghost predicate Sound(c: Config, buffer: seq<byte>) {
    && Valid(c.state)
    && (c.Looping? ==> c.offset <= |buffer| && c.state.readingState == 0)
  }

  /** One pass of the do-while body; `offset` becomes the count this pass consumed. */
  function Pass(c: Config, buffer: seq<byte>): (r: Config)
    requires Valid(c.state) && c.Looping? && c.offset <= |buffer|
    ensures Sound(r, buffer)
  {
    var r := Receive(c.state, buffer[c.offset..]);
    var segments := c.segments + [Read(c.offset, r.used)];
    if r.status != Done then
      Returned(r.state, c.messages, segments, r.status == Abort)
    else if r.used < |buffer| then
      Looping(Delivered(r.state), r.used, c.messages + [MessageOf(r.state)], segments)
    else
      Returned(Delivered(r.state), c.messages + [MessageOf(r.state)], segments, false)
  }

  /** The call after at most k passes. */
  function Loop(s: State, buffer: seq<byte>, k: nat): (c: Config)
    requires Valid(s)
    ensures Valid(c.state) && (k > 0 ==> Sound(c, buffer))
    ensures k == 0 ==> c == Looping(s, 0, [], [])
  {
    if k == 0 then Looping(s, 0, [], [])
    else
      var c := Loop(s, buffer, k - 1);
      if c.Returned? then c else Pass(c, buffer)
  }

  /** Every pass starts where the previous one stopped. */
  ghost predicate Contiguous(segments: seq<Read>) {
    forall i :: 0 < i < |segments| ==> segments[i].start == segments[i - 1].start + segments[i - 1].used
  }

  lemma DecodeUnfold(s: State, buffer: seq<byte>)
    requires Valid(s)
    ensures var r := Receive(s, buffer);
      if r.status != Done then Decode(s, buffer) == Decoding([], r.state, r.status == Abort)
      else
        var d := Decode(Delivered(r.state), buffer[r.used..]);
        Decode(s, buffer) == Decoding([MessageOf(r.state)] + d.messages, d.state, d.aborted)
  {
  }

  /** At most one frame: the call returns within two passes, having decoded the buffer. */
  lemma OneFrameReturns(s: State, buffer: seq<byte>)
    requires Valid(s) && |Decode(s, buffer).messages| <= 1
    ensures var c := Loop(s, buffer, 2);
      && c.Returned? && Contiguous(c.segments)
      && Decoding(c.messages, c.state, c.aborted) == Decode(s, buffer)
  {
    hide Receive;
    var r := Receive(s, buffer);
    var c0 := Loop(s, buffer, 0);
    var c1 := Loop(s, buffer, 1);
    assert buffer[0..] == buffer;
    DecodeUnfold(s, buffer);
    assert c1 == Pass(c0, buffer);
    if r.status == Done {
      DecodeUnfold(Delivered(r.state), buffer[r.used..]);
      assert c1.messages == [MessageOf(r.state)];
      if r.used == |buffer| {
        EmptyInput(Delivered(r.state));
        assert buffer[r.used..] == [];
      } else {
        assert Loop(s, buffer, 2) == Pass(c1, buffer);
      }
    }
  }

  lemma EmptyInput(s: State)
    requires Valid(s)
    ensures Receive(s, []) == Feeding(s, 0, More)
  {
  }

  /** Two frames or more: the third pass always happens, and re-segments from the wrong place. */
  lemma TwoFramesMisread(s: State, buffer: seq<byte>)
    requires Valid(s) && |Decode(s, buffer).messages| >= 2
    ensures !Contiguous(Loop(s, buffer, 3).segments)
  {
    hide Receive;
    var r1 := Receive(s, buffer);
    assert buffer[0..] == buffer;
    DecodeUnfold(s, buffer);
    var s1, rest := Delivered(r1.state), buffer[r1.used..];
    DecodeUnfold(s1, rest);
    var r2 := Receive(s1, rest);
    var c1 := Loop(s, buffer, 1);
    assert c1 == Pass(Loop(s, buffer, 0), buffer);
    var c2 := Loop(s, buffer, 2);
    assert c2 == Pass(c1, buffer);
    assert c2.Looping?;
    var c3 := Loop(s, buffer, 3);
    assert c3 == Pass(c2, buffer);
    assert c3.segments[1] == Read(r1.used, r2.used) && c3.segments[2].start == r2.used;
  }

  /** When the loop segments the input once, in order: exactly when at most one frame completes. */
  lemma ReadsInOrderIffAtMostOneFrame(s: State, buffer: seq<byte>)
    requires Valid(s)
    ensures (forall k: nat :: Contiguous(Loop(s, buffer, k).segments)) <==> |Decode(s, buffer).messages| <= 1
  {
    if |Decode(s, buffer).messages| <= 1 {
      OneFrameReturns(s, buffer);
      forall k: nat ensures Contiguous(Loop(s, buffer, k).segments) {
        ContiguousUpTo(s, buffer, k);
      }
    } else {
      TwoFramesMisread(s, buffer);
    }
  }

  lemma {:induction false} ContiguousUpTo(s: State, buffer: seq<byte>, k: nat)
    requires Valid(s) && |Decode(s, buffer).messages| <= 1
    ensures k >= 2 ==> Loop(s, buffer, k) == Loop(s, buffer, 2)
    ensures Contiguous(Loop(s, buffer, k).segments)
  {
    OneFrameReturns(s, buffer);
    if k > 2 {
      ContiguousUpTo(s, buffer, k - 1);
    } else if k == 1 {
      assert Loop(s, buffer, 1) == Pass(Loop(s, buffer, 0), buffer);
    }
  }

  /**
    A buffer that the loop never leaves: two one-byte text frames in one call. The second is
    delivered again and again, however many passes are made.
   */
  lemma {:induction false} TwoSmallFramesNeverReturn(s: State, k: nat)
    requires Valid(s) && s.readingState == 0 && k > 0
    ensures var c := Loop(s, [0x81, 1, 65, 0x81, 1, 66], k);
      && c.Looping? && c.offset == 3 && |c.messages| == k
      && forall i :: 0 < i < k ==> c.messages[i] == Message(0x81, [66])
  {
    hide Receive;
    var buffer: seq<byte> := [0x81, 1, 65, 0x81, 1, 66];
    if k == 1 {
      assert Loop(s, buffer, 1) == Pass(Loop(s, buffer, 0), buffer);
      OneByteFrame(s, 65, [0x81, 1, 66]);
      assert buffer[0..] == [0x81, 1, 65] + [0x81, 1, 66];
    } else {
      TwoSmallFramesNeverReturn(s, k - 1);
      var c := Loop(s, buffer, k - 1);
      assert Loop(s, buffer, k) == Pass(c, buffer);
      OneByteFrame(c.state, 66, []);
      assert buffer[3..] == [0x81, 1, 66] + [];
    }
  }

  lemma OneByteFrame(s: State, b: byte, rest: seq<byte>)
    requires Valid(s) && s.readingState == 0
    ensures var r := Receive(s, [0x81, 1, b] + rest);
      r.status == Done && r.used == 3 && MessageOf(r.state) == Message(0x81, [b])
  {
    var f := WireFrame(0x81, Bits7, None, [b]);
    DecodeInvertsEncode(s, f, rest);
    assert LengthByte(f) == 1;
    assert Extended(f) == [] && Key(f) == [];
    assert Encode(f) == [0x81, 1, b];
  }

  // ---- Whole streams ----

  /** Decoding a then b, unless a already aborted. */
  lemma {:induction false} DecodeSplit(s: State, a: seq<byte>, b: seq<byte>)
    requires Valid(s) && !Decode(s, a).aborted
    ensures var first := Decode(s, a);
      var second := Decode(first.state, b);
      Decode(s, a + b) == Decoding(first.messages + second.messages, second.state, second.aborted)
    decreases |a|
  {
    hide Receive, Decode;
    var r := Receive(s, a);
    ChunkInvariance(s, a, b);
    DecodeUnfold(s, a);
    DecodeUnfold(s, a + b);
    if r.status == Done {
      DecodeSplit(Delivered(r.state), a[r.used..], b);
      assert (a + b)[r.used..] == a[r.used..] + b;
    } else {
      DecodeUnfold(r.state, b);
      var r2 := Receive(r.state, b);
      assert (a + b)[|a| + r2.used..] == b[r2.used..];
    }
  }

  function Concat(chunks: seq<seq<byte>>): seq<byte> {
    if chunks == [] then [] else chunks[0] + Concat(chunks[1..])
  }

  /** A run of calls, one per chunk, each as written. None when some call has not returned in two passes. */
  function Calls(s: State, chunks: seq<seq<byte>>): (r: Option<Decoding>)
    requires Valid(s)
    ensures r.Some? ==> Valid(r.value.state)
    decreases |chunks|
  {
    if chunks == [] then Some(Decoding([], s, false))
    else
      var c := Loop(s, chunks[0], 2);
      if c.Looping? then None
      else if c.aborted then Some(Decoding(c.messages, c.state, true))
      else
        var rest := Calls(c.state, chunks[1..]);
        if rest.None? then None
        else Some(Decoding(c.messages + rest.value.messages, rest.value.state, rest.value.aborted))
  }

  /** Each call of the run completes at most one frame. */
  ghost predicate OneFramePerCall(s: State, chunks: seq<seq<byte>>)
    requires Valid(s)
    decreases |chunks|
  {
    chunks != [] ==>
      var d := Decode(s, chunks[0]);
      |d.messages| <= 1 && (d.aborted || OneFramePerCall(d.state, chunks[1..]))
  }

  /**
    For every chunking with at most one frame per call, the run delivers what the unbroken
    stream contains, in order, and leaves the decoder where the unbroken stream leaves it.
   */
  lemma {:induction false} ChunkedRun(s: State, chunks: seq<seq<byte>>)
    requires Valid(s) && OneFramePerCall(s, chunks) && !Decode(s, Concat(chunks)).aborted
    ensures Calls(s, chunks) == Some(Decode(s, Concat(chunks)))
    decreases |chunks|
  {
    hide Receive, Decode, Loop;
    if chunks == [] {
      EmptyInput(s);
      DecodeUnfold(s, []);
    } else {
      var a, b := chunks[0], Concat(chunks[1..]);
      OneFrameReturns(s, a);
      if Decode(s, a).aborted {
        AbortStays(s, a, b);
        assert false;
      } else {
        DecodeSplit(s, a, b);
        ChunkedRun(Decode(s, a).state, chunks[1..]);
      }
    }
  }

  lemma {:induction false} AbortStays(s: State, a: seq<byte>, b: seq<byte>)
    requires Valid(s) && Decode(s, a).aborted
    ensures Decode(s, a + b).aborted
    decreases |a|
  {
    hide Receive, Decode;
    var r := Receive(s, a);
    ChunkInvariance(s, a, b);
    DecodeUnfold(s, a);
    DecodeUnfold(s, a + b);
    if r.status == Done {
      AbortStays(Delivered(r.state), a[r.used..], b);
      assert (a + b)[r.used..] == a[r.used..] + b;
    }
  }

  ghost predicate AllSendable(frames: seq<WireFrame>) {
    forall i :: 0 <= i < |frames| ==> WellFormed(frames[i]) && frames[i].payload != []
  }

  function Wire(frames: seq<WireFrame>): seq<byte>
    requires AllSendable(frames)
  {
    if frames == [] then [] else Encode(frames[0]) + Wire(frames[1..])
  }

  function Sent(frames: seq<WireFrame>): (m: seq<Message>)
    ensures |m| == |frames|
  {
    seq(|frames|, i requires 0 <= i < |frames| => Message(frames[i].flags, frames[i].payload))
  }

  /** The messages of a stream of encoded frames are those frames; a tail is decoded after them. */
  lemma {:induction false} StreamOfFrames(s: State, frames: seq<WireFrame>, tail: seq<byte>) returns (t: State)
    requires Valid(s) && s.readingState == 0 && AllSendable(frames)
    ensures Valid(t) && t.readingState == 0
    ensures var d := Decode(t, tail);
      Decode(s, Wire(frames) + tail) == Decoding(Sent(frames) + d.messages, d.state, d.aborted)
    decreases |frames|
  {
    hide Receive, Encode, Decode;
    if frames == [] {
      t := s;
      assert Wire(frames) + tail == tail;
    } else {
      var f, later := frames[0], frames[1..];
      var rest := Wire(later) + tail;
      DecodeInvertsEncode(s, f, rest);
      DecodeUnfold(s, Encode(f) + rest);
      assert Wire(frames) + tail == Encode(f) + rest;
      assert (Encode(f) + rest)[|Encode(f)|..] == rest;
      t := StreamOfFrames(Delivered(Receive(s, Encode(f) + rest).state), later, tail);
      assert Sent(frames) == [Message(f.flags, f.payload)] + Sent(later);
    }
  }

  /**
    A frame cut in two: an idle decoder waits after the first part, and whatever it remembers
    then, the second part completes the frame.
   */
  lemma UnfinishedFrame(t: State, f: WireFrame, tail: seq<byte>, rest: seq<byte>)
    requires Valid(t) && t.readingState == 0 && WellFormed(f) && f.payload != []
    requires Encode(f) == tail + rest && rest != []
    ensures Receive(t, tail).status == More
    ensures var r := Receive(Receive(t, tail).state, rest);
      r.status == Done && r.used == |rest| && MessageOf(r.state) == Message(f.flags, f.payload)
  {
    hide Receive, Encode;
    DecodeInvertsEncode(t, f, []);
    assert Encode(f) + [] == tail + rest;
    ChunkInvariance(t, tail, rest);
  }

  /**
    End to end: however a stream of sendable frames and the beginning of one more is cut, as long
    as no call completes two, the handler delivers exactly the frames sent, in order, and holds
    the partial frame: the bytes that are missing complete it.
   */
  lemma DeliversWhatWasSent(s: State, frames: seq<WireFrame>, f: WireFrame, tail: seq<byte>, rest: seq<byte>,
                            chunks: seq<seq<byte>>)
    requires Valid(s) && s.readingState == 0 && AllSendable(frames)
    requires WellFormed(f) && f.payload != [] && Encode(f) == tail + rest && rest != []
    requires Concat(chunks) == Wire(frames) + tail && OneFramePerCall(s, chunks)
    ensures var c := Calls(s, chunks);
      && c.Some? && c.value.messages == Sent(frames) && !c.value.aborted
      && var r := Receive(c.value.state, rest);
         r.status == Done && r.used == |rest| && MessageOf(r.state) == Message(f.flags, f.payload)
  {
    hide Receive, Calls, OneFramePerCall, Wire, Encode;
    var t := StreamOfFrames(s, frames, tail);
    UnfinishedFrame(t, f, tail, rest);
    DecodeUnfold(t, tail);
    assert Sent(frames) + [] == Sent(frames);
    ChunkedRun(s, chunks);
  }

  /** The handler object: one frame record and what its callback received. */
  class Handler {
    const frameInst: Frame
    var delivered: seq<Message>

    constructor ()
      ensures frameInst.Ok() && frameInst.readingState == 0 && delivered == []
      ensures fresh(frameInst) && fresh(frameInst.mask) && fresh(frameInst.bufferTmp)
    {
      frameInst := new Frame();
      delivered := [];
    }

    /**
      Handles one input buffer. `requires` names the inputs on which the loop segments in order;
      see ReadsInOrderIffAtMostOneFrame.
     */
    method OnInput(buffer: seq<byte>) returns (aborted: bool)
      requires frameInst.Ok() && |Decode(frameInst.Value(), buffer).messages| <= 1
      modifies this, frameInst, frameInst.mask, frameInst.bufferTmp
      ensures frameInst.Ok()
      ensures var d := Decode(old(frameInst.Value()), buffer);
        delivered == old(delivered) + d.messages && frameInst.Value() == d.state && aborted == d.aborted
    {
      hide Receive, Valid;
      aborted := false;
      var inBufferOffset := 0;
      ghost var s0, before, passes := frameInst.Value(), delivered, 0;
      OneFrameReturns(s0, buffer);
      while true
        invariant frameInst.Ok() && inBufferOffset <= |buffer|
        invariant passes <= 1 && !aborted
        invariant Loop(s0, buffer, passes).Looping?
        invariant var c := Loop(s0, buffer, passes);
          c.state == frameInst.Value() && c.offset == inBufferOffset && before + c.messages == delivered
        decreases 2 - passes
      {
        ghost var c := Loop(s0, buffer, passes);
        var used, status := frameInst.ReceiveData(buffer[inBufferOffset..]);
        passes := passes + 1;
        assert Loop(s0, buffer, passes) == Pass(c, buffer);
        inBufferOffset := used;
        if status != Done {
          aborted := status == Abort;
          assert Loop(s0, buffer, passes).Returned?;
          assert Loop(s0, buffer, 2) == Loop(s0, buffer, passes);
          return;
        }
        delivered := delivered + [Message(frameInst.flags, frameInst.payload)];
        frameInst.flags := 0;
        frameInst.lenByte := 0;
        if inBufferOffset >= |buffer| {
          assert Loop(s0, buffer, 2) == Loop(s0, buffer, passes);
          return;
        }
        assert passes < 2;
      }
    }
  }
}
