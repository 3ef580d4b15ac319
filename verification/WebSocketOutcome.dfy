/**
  When the input loop comes out right, read in order or not. A call that begins between two
  frames, on input that trips no assert, ends with the messages and the record of `Decode`
  exactly when at most one frame completes. Of two calls, one that begins in the middle of a
  frame and one that trips an assert, it is shown that a misread input can come out right.
 */
module WebSocketOutcome {
  import opened Prelude
  import opened WebSocketFrame
  import opened WebSocketFraming
  import opened WebSocketHandler

  /** The loop ends, and with what the buffer contains. */
  ghost predicate DeliversDecoded(s: State, buffer: seq<byte>)
    requires Valid(s)
  {
    exists k: nat :: Comes(Loop(s, buffer, k), Decode(s, buffer))
  }

  ghost predicate Comes(c: Config, d: Decoding) {
    c.Returned? && Decoding(c.messages, c.state, c.aborted) == d
  }

  // ---- The frames in the input ----

  /** Frame f lies in the input at this offset. */
  ghost predicate At(buffer: seq<byte>, o: nat, f: WireFrame) {
    o <= |buffer| && Starts(buffer[o..], f)
  }

  lemma OneFrameAt(buffer: seq<byte>, o: nat, f: WireFrame, g: WireFrame)
    requires At(buffer, o, f) && At(buffer, o, g)
    ensures f == g
  {
    hide Encode, WellFormed;
    var b := buffer[o..];
    assert Encode(f) + b[|Encode(f)|..] == b == Encode(g) + b[|Encode(g)|..];
    UniquelyDecodable(f, b[|Encode(f)|..], g, b[|Encode(g)|..]);
  }

  lemma {:induction false} WireAppends(a: seq<WireFrame>, b: seq<WireFrame>)
    requires AllSendable(a) && AllSendable(b)
    ensures AllSendable(a + b) && Wire(a + b) == Wire(a) + Wire(b)
    decreases |a|
  {
    hide Encode, WellFormed;
    if a == [] {
      assert a + b == b;
    } else {
      assert AllSendable(a[1..]);
      WireAppends(a[1..], b);
      assert a + b == [a[0]] + (a[1..] + b);
    }
  }

  /** Where frame i of a stream starts. */
  function Offset(frames: seq<WireFrame>, i: nat): nat
    requires AllSendable(frames) && i <= |frames|
  {
    |Wire(frames[..i])|
  }

  lemma OffsetOfNext(frames: seq<WireFrame>, i: nat)
    requires AllSendable(frames) && i < |frames|
    ensures Offset(frames, i + 1) == Offset(frames, i) + |Encode(frames[i])|
    ensures Offset(frames, 0) == 0
  {
    hide Encode, WellFormed;
    assert frames[..i + 1] == frames[..i] + [frames[i]];
    WireAppends(frames[..i], [frames[i]]);
    assert Wire([frames[i]]) == Encode(frames[i]) + Wire([]);
  }

  lemma FrameOfStream(frames: seq<WireFrame>, tail: seq<byte>, i: nat)
    requires AllSendable(frames) && i < |frames|
    ensures At(Wire(frames) + tail, Offset(frames, i), frames[i])
  {
    hide Encode, WellFormed, Wire;
    var a, b := frames[..i], frames[i..];
    assert frames == a + b;
    WireAppends(a, b);
    WireFirst(b);
    assert (Wire(a) + Wire(b) + tail)[|Wire(a)|..] == Wire(b) + tail;
  }

  lemma WireFirst(frames: seq<WireFrame>)
    requires AllSendable(frames) && frames != []
    ensures Encode(frames[0]) <= Wire(frames)
  {
    hide Encode, WellFormed;
  }

  /** From an idle decoder, all that decodes without an assert is a stream of frames and a beginning of one more. */
  lemma {:induction false} DecodedIsAStream(s: State, buffer: seq<byte>)
      returns (frames: seq<WireFrame>, tail: seq<byte>)
    requires Valid(s) && s.readingState == 0 && !Decode(s, buffer).aborted
    ensures AllSendable(frames) && buffer == Wire(frames) + tail
    ensures Decode(s, buffer).messages == Sent(frames) && Taken(Decode(s, buffer).state) == |tail|
    decreases |buffer|
  {
    hide Receive, Encode, Decode, WellFormed, Taken;
    var r := Receive(s, buffer);
    DecodeUnfold(s, buffer);
    if r.status == Done {
      var f, rest := DecodedIsEncoded(s, buffer);
      var later;
      assert buffer[r.used..] == rest;
      later, tail := DecodedIsAStream(Delivered(r.state), rest);
      frames := [f] + later;
      assert Sent(frames) == [Message(f.flags, f.payload)] + Sent(later);
      assert frames[1..] == later;
    } else {
      frames, tail := [], buffer;
      IdleTakes(s, buffer);
    }
  }

  lemma IdleTakes(s: State, buffer: seq<byte>)
    requires Valid(s) && s.readingState == 0 && Receive(s, buffer).status == More
    ensures Taken(Receive(s, buffer).state) == |buffer|
  {
    FeedTakes(s, buffer);
  }

  // ---- The frames the loop reads ----

  /** The loop's i-th pass starts at the length of the frame before. */
  function From(found: seq<WireFrame>, i: nat): nat
    requires AllSendable(found) && i <= |found|
  {
    if i == 0 then 0 else |Encode(found[i - 1])|
  }

  /** Each of these frames lies where the loop looks for it. */
  ghost predicate ReadBy(buffer: seq<byte>, found: seq<WireFrame>) {
    AllSendable(found) && forall i :: 0 <= i < |found| ==> At(buffer, From(found, i), found[i])
  }

  /** Where the loop is after these frames. */
  ghost predicate After(c: Config, buffer: seq<byte>, found: seq<WireFrame>)
    requires AllSendable(found)
  {
    && c.messages == Sent(found)
    && (c.Looping? ==> c.offset == From(found, |found|) && c.state.readingState == 0)
    && (c.Returned? && !c.aborted ==> Taken(c.state) + From(found, |found|) == |buffer|)
  }

  lemma OneMoreRead(buffer: seq<byte>, found: seq<WireFrame>, f: WireFrame)
    requires ReadBy(buffer, found) && At(buffer, From(found, |found|), f)
    ensures ReadBy(buffer, found + [f]) && From(found + [f], |found| + 1) == |Encode(f)|
    ensures Sent(found + [f]) == Sent(found) + [Message(f.flags, f.payload)]
  {
    hide Encode, WellFormed;
    var more := found + [f];
    forall i | 0 <= i < |more| ensures At(buffer, From(more, i), more[i]) {
      assert From(more, i) == From(found, i);
    }
  }

  lemma PassReads(c: Config, buffer: seq<byte>, found: seq<WireFrame>) returns (more: seq<WireFrame>)
    requires Valid(c.state) && c.Looping? && c.offset <= |buffer| && ReadBy(buffer, found) && After(c, buffer, found)
    ensures ReadBy(buffer, more) && After(Pass(c, buffer), buffer, more)
  {
    hide Receive, Encode, WellFormed, At, ReadBy;
    var b := buffer[c.offset..];
    var r := Receive(c.state, b);
    more := found;
    if r.status == Done {
      var f, rest := DecodedIsEncoded(c.state, b);
      assert Starts(b, f) by {
        assert Encode(f) <= Encode(f) + rest;
      }
      AtStart(buffer, c.offset, f);
      OneMoreRead(buffer, found, f);
      more := found + [f];
    } else if r.status == More {
      IdleTakes(c.state, b);
    }
  }

  lemma AtStart(buffer: seq<byte>, o: nat, f: WireFrame)
    requires o <= |buffer| && Starts(buffer[o..], f)
    ensures At(buffer, o, f)
  {
  }

  /** Whatever the loop reads are frames, each found at the length of the one before. */
  lemma {:induction false} LoopReads(s: State, buffer: seq<byte>, k: nat) returns (found: seq<WireFrame>)
    requires Valid(s) && s.readingState == 0
    ensures ReadBy(buffer, found) && After(Loop(s, buffer, k), buffer, found)
  {
    hide Pass, At;
    if k == 0 {
      found := [];
      assert From(found, 0) == 0;
    } else {
      found := LoopReads(s, buffer, k - 1);
      var c := Loop(s, buffer, k - 1);
      if c.Looping? {
        found := PassReads(c, buffer, found);
      }
    }
  }

  // ---- Both cannot end alike ----

  /** What the input shows of a frame of n bytes with p bytes of payload. */
  ghost predicate Shows(buffer: seq<byte>, o: nat, n: nat, p: nat) {
    && o + n <= |buffer| && 0 < p && p + 2 <= n <= p + 14
    && buffer[o + 1] != 0
    && (n < p + 9 ==> p < 0x1_0000)
    && (n >= p + 9 && p < 0x1_0000 ==> Quiet(buffer, o))
  }

  /** The first six bytes of a long length field are zero. */
  ghost predicate Quiet(buffer: seq<byte>, o: nat) {
    o + 8 <= |buffer| && forall j :: o + 2 <= j < o + 8 ==> buffer[j] == 0
  }

  lemma NotQuiet(buffer: seq<byte>, o: nat, j: nat)
    requires o + 2 <= j < o + 8 && j < |buffer| && buffer[j] != 0
    ensures !Quiet(buffer, o)
  {
  }

  lemma {:induction false} ZeroInBytes(k: nat)
    ensures forall j :: 0 <= j < k ==> ToBigEndian(0, k)[j] == 0
  {
    if k > 0 {
      ZeroInBytes(k - 1);
    }
  }

  lemma SmallInBytes(n: nat)
    requires n < 0x1_0000
    ensures forall j :: 0 <= j < 6 ==> ToBigEndian(n, 8)[j] == 0
  {
    ZeroInBytes(6);
    assert n / 256 / 256 == 0;
    assert ToBigEndian(n, 8) == ToBigEndian(n / 256, 7) + [n % 256];
    assert ToBigEndian(n / 256, 7) == ToBigEndian(0, 6) + [n / 256 % 256];
  }

  lemma FrameShows(buffer: seq<byte>, o: nat, f: WireFrame)
    requires At(buffer, o, f)
    ensures Shows(buffer, o, |Encode(f)|, |f.payload|)
  {
    var p, h := |f.payload|, Header(f);
    var b := buffer[o..];
    assert |h| == 2 + |Extended(f)| + |Key(f)| && Encode(f) == h + Masked(f);
    assert LengthByte(f) == h[1] == b[1] == buffer[o + 1];
    if |h| >= 9 && p < 0x1_0000 {
      SmallInBytes(p);
      assert Extended(f) == ToBigEndian(p, 8);
      forall j | o + 2 <= j < o + 8 ensures buffer[j] == 0 {
        assert buffer[j] == b[j - o] == h[j - o] == Extended(f)[j - o - 2];
      }
    }
  }

  /**
    After two short frames of different lengths no long length form starts at the length of the
    second: its zeros would have to cover the length byte of the second frame or of the third.
   */
  lemma NoLongForm(buffer: seq<byte>, n0: nat, p0: nat, n1: nat, p1: nat, n2: nat, p2: nat, m: nat, p: nat)
    requires Shows(buffer, 0, n0, p0) && Shows(buffer, n0, n1, p1) && Shows(buffer, n0 + n1, n2, p2)
    requires n0 != n1 && n0 + n1 <= 12 && Shows(buffer, n1, m, p) && p < 0x1_0000
    ensures m < p + 9
  {
    hide Quiet;
    NotQuiet(buffer, n1, if n0 > n1 then n0 + 1 else n0 + n1 + 1);
  }

  /** Three frames: the loop's third read would have to be in a long form. */
  lemma NotAfterThree(buffer: seq<byte>, n0: nat, p0: nat, n1: nat, p1: nat, n2: nat, p2: nat)
    requires Shows(buffer, 0, n0, p0) && Shows(buffer, n0, n1, p1) && Shows(buffer, n0 + n1, n2, p2) && n0 != n1
    ensures !Shows(buffer, n1, n0 + n1 + n2, p2)
  {
    if Shows(buffer, n1, n0 + n1 + n2, p2) {
      NoLongForm(buffer, n0, p0, n1, p1, n2, p2, n0 + n1 + n2, p2);
    }
  }

  /** Four frames: the fourth would, and the third would have to be too short for it. */
  lemma NotAfterFour(buffer: seq<byte>, n0: nat, p0: nat, n1: nat, p1: nat, n2: nat, p2: nat, n3: nat, p3: nat, m: nat)
    requires Shows(buffer, 0, n0, p0) && Shows(buffer, n0, n1, p1) && n0 != n1
    requires Shows(buffer, n0 + n1, n2, p2) && Shows(buffer, n0 + n1 + n2, n3, p3) && Shows(buffer, n1, m, p2)
    ensures !Shows(buffer, m, n0 + n1 + n2 + n3, p3)
  {
    hide Quiet;
    if Shows(buffer, m, n0 + n1 + n2 + n3, p3) {
      NoLongForm(buffer, n0, p0, n1, p1, n2, p2, m, p2);
      NotQuiet(buffer, m, if n0 + n1 > m then n0 + n1 + 1 else n0 + n1 + n2 + 1);
    }
  }

  /** When the second frame is as long as the first, the loop reads it again and again. */
  lemma {:induction false} SecondAgain(buffer: seq<byte>, found: seq<WireFrame>, f: WireFrame, i: nat)
    requires ReadBy(buffer, found) && 0 < i < |found| && found[1] == f && At(buffer, |Encode(f)|, f)
    ensures found[i] == f
  {
    hide Encode, At;
    if i > 1 {
      SecondAgain(buffer, found, f, i - 1);
      assert At(buffer, From(found, i), found[i]);
      OneFrameAt(buffer, |Encode(f)|, found[i], f);
    }
  }

  /** The i-th frame of the stream, as its bytes show it. */
  lemma StreamShows(frames: seq<WireFrame>, tail: seq<byte>, i: nat)
    requires AllSendable(frames) && i < |frames|
    ensures var n := |Encode(frames[i])|;
      Shows(Wire(frames) + tail, Offset(frames, i), n, |frames[i].payload|)
      && Offset(frames, 0) == 0 && Offset(frames, i + 1) == Offset(frames, i) + n
  {
    hide Encode, WellFormed, Wire, Shows, At;
    FrameOfStream(frames, tail, i);
    FrameShows(Wire(frames) + tail, Offset(frames, i), frames[i]);
    OffsetOfNext(frames, i);
  }

  lemma FoundShows(buffer: seq<byte>, found: seq<WireFrame>, i: nat)
    requires ReadBy(buffer, found) && i < |found|
    ensures Shows(buffer, From(found, i), |Encode(found[i])|, |found[i].payload|)
  {
    hide Encode, WellFormed, Wire, Shows, At;
    FrameShows(buffer, From(found, i), found[i]);
  }

  /** The loop's first two reads are right. */
  lemma FirstTwo(frames: seq<WireFrame>, tail: seq<byte>, found: seq<WireFrame>)
    requires AllSendable(frames) && |frames| >= 2 && |found| >= 2 && ReadBy(Wire(frames) + tail, found)
    ensures found[0] == frames[0] && found[1] == frames[1]
  {
    hide Encode, WellFormed, Wire, At;
    var buffer := Wire(frames) + tail;
    FrameOfStream(frames, tail, 0);
    FrameOfStream(frames, tail, 1);
    OffsetOfNext(frames, 0);
    assert From(found, 0) == 0 == Offset(frames, 0);
    OneFrameAt(buffer, 0, found[0], frames[0]);
    assert From(found, 1) == |Encode(frames[0])| == Offset(frames, 1);
    OneFrameAt(buffer, From(found, 1), found[1], frames[1]);
  }

  /** The same payloads, and the same position in the end. */
  ghost predicate Alike(frames: seq<WireFrame>, found: seq<WireFrame>)
    requires AllSendable(frames) && AllSendable(found)
  {
    && |frames| == |found|
    && (forall i :: 0 <= i < |frames| ==> |found[i].payload| == |frames[i].payload|)
    && From(found, |found|) == Offset(frames, |frames|)
  }

  /** Two frames of different lengths, and a stream of at most four. */
  lemma NotAlikeInFour(frames: seq<WireFrame>, tail: seq<byte>, found: seq<WireFrame>)
    requires AllSendable(frames) && AllSendable(found) && 3 <= |frames| <= 4
    requires ReadBy(Wire(frames) + tail, found) && |Encode(frames[0])| != |Encode(frames[1])|
    ensures !Alike(frames, found)
  {
    hide Encode, Wire, At, Shows, ReadBy, Offset;
    var buffer, m := Wire(frames) + tail, |frames|;
    if Alike(frames, found) {
      FirstTwo(frames, tail, found);
      var n0, n1, n2 := |Encode(frames[0])|, |Encode(frames[1])|, |Encode(frames[2])|;
      var p0, p1, p2 := |frames[0].payload|, |frames[1].payload|, |frames[2].payload|;
      StreamShows(frames, tail, 0);
      StreamShows(frames, tail, 1);
      StreamShows(frames, tail, 2);
      FoundShows(buffer, found, 2);
      if m == 3 {
        NotAfterThree(buffer, n0, p0, n1, p1, n2, p2);
      } else {
        StreamShows(frames, tail, 3);
        FoundShows(buffer, found, 3);
        NotAfterFour(buffer, n0, p0, n1, p1, n2, p2, |Encode(frames[3])|, |frames[3].payload|, |Encode(found[2])|);
      }
    }
  }

  /** The frames before the last fit into the difference of two headers. */
  lemma FewFrames(frames: seq<WireFrame>, tail: seq<byte>, found: seq<WireFrame>)
    requires AllSendable(frames) && AllSendable(found) && |frames| >= 2
    requires ReadBy(Wire(frames) + tail, found) && Alike(frames, found)
    ensures Offset(frames, |frames| - 1) <= 12
  {
    hide Encode, Wire, At, ReadBy, Offset, AllSendable;
    var m := |frames|;
    StreamShows(frames, tail, m - 1);
    FoundShows(Wire(frames) + tail, found, m - 1);
  }

  /** Each frame of a stream takes three bytes at least. */
  lemma {:induction false} OffsetFrom(frames: seq<WireFrame>, i: nat, k: nat)
    requires AllSendable(frames) && k <= i <= |frames|
    ensures Offset(frames, i) >= Offset(frames, k) + 3 * (i - k)
    decreases i
  {
    hide Encode, Offset;
    if i > k {
      OffsetFrom(frames, i - 1, k);
      OffsetOfNext(frames, i - 1);
    }
  }

  /** A second frame as long as the first: the loop stays at its length. */
  lemma NotAlikeInRepeats(frames: seq<WireFrame>, tail: seq<byte>, found: seq<WireFrame>)
    requires AllSendable(frames) && AllSendable(found) && |frames| >= 2 && ReadBy(Wire(frames) + tail, found)
    requires |Encode(frames[0])| == |Encode(frames[1])|
    ensures !Alike(frames, found)
  {
    hide Encode, Wire, At, ReadBy, Offset;
    var m := |frames|;
    if Alike(frames, found) {
      FirstTwo(frames, tail, found);
      OffsetOfNext(frames, 0);
      OffsetOfNext(frames, 1);
      FrameOfStream(frames, tail, 1);
      SecondAgain(Wire(frames) + tail, found, frames[1], m - 1);
      OffsetFrom(frames, m, 2);
    }
  }

  /** Two frames of different lengths take seven bytes, so that five frames are too many. */
  lemma NotAlikeInMany(frames: seq<WireFrame>, tail: seq<byte>, found: seq<WireFrame>)
    requires AllSendable(frames) && AllSendable(found) && |frames| >= 5 && ReadBy(Wire(frames) + tail, found)
    requires |Encode(frames[0])| != |Encode(frames[1])|
    ensures !Alike(frames, found)
  {
    hide Encode, Wire, At, ReadBy, Offset, Alike;
    if Alike(frames, found) {
      OffsetOfNext(frames, 0);
      OffsetOfNext(frames, 1);
      OffsetFrom(frames, |frames| - 1, 2);
      FewFrames(frames, tail, found);
    }
  }

  /** Reading two frames or more, the loop does not come out where the frames of the stream end. */
  lemma NotAlike(frames: seq<WireFrame>, tail: seq<byte>, found: seq<WireFrame>)
    requires AllSendable(frames) && AllSendable(found) && |frames| >= 2 && ReadBy(Wire(frames) + tail, found)
    ensures !Alike(frames, found)
  {
    hide Encode, Wire, At, ReadBy, Offset;
    var m := |frames|;
    if |Encode(frames[0])| == |Encode(frames[1])| {
      NotAlikeInRepeats(frames, tail, found);
    } else if m > 4 {
      NotAlikeInMany(frames, tail, found);
    } else if m > 2 {
      NotAlikeInFour(frames, tail, found);
    } else if Alike(frames, found) {
      FirstTwo(frames, tail, found);
      OffsetOfNext(frames, 0);
      OffsetOfNext(frames, 1);
    }
  }

  // ---- The theorem ----

  lemma SentPayloads(frames: seq<WireFrame>, found: seq<WireFrame>)
    requires AllSendable(frames) && AllSendable(found) && Sent(frames) == Sent(found)
    ensures |frames| == |found| && forall i :: 0 <= i < |frames| ==> |found[i].payload| == |frames[i].payload|
  {
    forall i | 0 <= i < |frames| ensures |found[i].payload| == |frames[i].payload| {
      assert Sent(frames)[i].payload == Sent(found)[i].payload;
    }
  }

  lemma MoreFramesDiffer(s: State, buffer: seq<byte>, k: nat)
    requires Valid(s) && s.readingState == 0 && !Decode(s, buffer).aborted && |Decode(s, buffer).messages| >= 2
    ensures !Comes(Loop(s, buffer, k), Decode(s, buffer))
  {
    hide Decode, Loop, Wire, AllSendable, Taken, Offset, From;
    if Comes(Loop(s, buffer, k), Decode(s, buffer)) {
      var frames, tail := DecodedIsAStream(s, buffer);
      var found := LoopReads(s, buffer, k);
      SentPayloads(frames, found);
      assert Offset(frames, |frames|) == |Wire(frames)| by {
        WholeOffset(frames);
      }
      NotAlike(frames, tail, found);
    }
  }

  lemma WholeOffset(frames: seq<WireFrame>)
    requires AllSendable(frames)
    ensures Offset(frames, |frames|) == |Wire(frames)|
  {
    assert frames[..|frames|] == frames;
  }

  /**
    Between two frames, on input that decodes without an assert: the call returns the messages
    and the record of the decoding if and only if at most one frame completes.
   */
  lemma RightIffAtMostOneFrame(s: State, buffer: seq<byte>)
    requires Valid(s) && s.readingState == 0 && !Decode(s, buffer).aborted
    ensures DeliversDecoded(s, buffer) <==> |Decode(s, buffer).messages| <= 1
  {
    hide Decode, Loop;
    if |Decode(s, buffer).messages| <= 1 {
      OneFrameReturns(s, buffer);
      assert Comes(Loop(s, buffer, 2), Decode(s, buffer));
    } else {
      forall k: nat ensures !Comes(Loop(s, buffer, k), Decode(s, buffer)) {
        MoreFramesDiffer(s, buffer, k);
      }
    }
  }

  // ---- Right by accident ----

  /** The record after the header of a frame without a key, when a payload byte is waiting. */
  function Headed(s: State, flags: byte, l: byte): State {
    s.(flags := flags, lenByte := l, useMask := false, size := l, readingState := 5, bufferPos := 0,
       payload := Resize(s.payload, l))
  }

  /** A short header without a key and without extended length. */
  lemma FeedPlainHeader(s: State, flags: byte, l: byte, rest: seq<byte>)
    requires Valid(s) && s.readingState == 0 && l < 126 && rest != []
    ensures Valid(Headed(s, flags, l))
    ensures Feed(s, [flags, l] + rest) == Shift(2, Feed(Headed(s, flags, l), rest))
  {
    hide Feed;
    FeedOne(s, flags, [l] + rest);
    assert [flags, l] + rest == [flags] + ([l] + rest);
    var s1 := Iterate(s, flags).state;
    FeedOne(s1, l, rest);
    var s2 := Iterate(s1, l).state;
    FeedNone(s2, rest);
    var s3 := Iterate(s2, rest[0]).state;
    FeedNone(s3, rest);
    var s4 := Iterate(s3, rest[0]).state;
    FeedNone(s4, rest);
    assert Iterate(s4, rest[0]).state == Headed(s, flags, l);
  }

  /** A short frame without a key leaves alone what it does not use. */
  lemma PlainFrame(s: State, flags: byte, m: seq<byte>, rest: seq<byte>)
    requires Valid(s) && s.readingState == 0 && 0 < |m| < 126
    ensures Receive(s, [flags, |m|] + m + rest)
      == Feeding(Headed(s, flags, |m|).(readingState := 0, payload := m), 2 + |m|, Done)
  {
    hide Feed;
    FeedPlainHeader(s, flags, |m|, m + rest);
    FeedPayload(Headed(s, flags, |m|), [], m, rest);
    assert [] + m == m;
    assert [flags, |m|] + m + rest == [flags, |m|] + (m + rest);
  }

  /** A frame without payload and without a key, and a byte after it. */
  lemma PlainAbort(s: State, flags: byte, rest: seq<byte>)
    requires Valid(s) && s.readingState == 0 && rest != []
    ensures Receive(s, [flags, 0] + rest) == Feeding(Headed(s, flags, 0), 2, Abort)
  {
    FeedPlainHeader(s, flags, 0, rest);
  }

  /** A pass that completes a frame and goes on. */
  lemma PassOn(s: State, buffer: seq<byte>, k: nat, used: nat, t: State)
    requires Valid(s) && Loop(s, buffer, k).Looping? && Loop(s, buffer, k).offset <= |buffer|
    requires var c := Loop(s, buffer, k); Receive(c.state, buffer[c.offset..]) == Feeding(t, used, Done)
    requires used < |buffer|
    ensures var c, c' := Loop(s, buffer, k), Loop(s, buffer, k + 1);
      && c'.Looping? && c'.offset == used && c'.messages == c.messages + [MessageOf(t)] && c'.state == Delivered(t)
  {
    hide Receive;
  }

  /** A pass that does not. */
  lemma PassEnds(s: State, buffer: seq<byte>, k: nat, r: Feeding)
    requires Valid(s) && Loop(s, buffer, k).Looping? && Loop(s, buffer, k).offset <= |buffer|
    requires var c := Loop(s, buffer, k); Receive(c.state, buffer[c.offset..]) == r && r.status != Done
    ensures Comes(Loop(s, buffer, k + 1), Decoding(Loop(s, buffer, k).messages, r.state, r.status == Abort))
  {
    hide Receive;
  }

  lemma LoopsTwo(s: State, b: seq<byte>, i: nat, x: State, j: nat, y: State, last: Feeding)
    requires Valid(s) && Receive(s, b) == Feeding(x, i, Done) && i < |b| && j < |b|
    requires Receive(Delivered(x), b[i..]) == Feeding(y, j, Done)
    requires Receive(Delivered(y), b[j..]) == last && last.status != Done
    ensures Comes(Loop(s, b, 3), Decoding([MessageOf(x), MessageOf(y)], last.state, last.status == Abort))
  {
    assert b[0..] == b && Loop(s, b, 0) == Looping(s, 0, [], []);
    hide *;
    PassOn(s, b, 0, i, x);
    PassOn(s, b, 1, j, y);
    PassEnds(s, b, 2, last);
  }

  /**
    An input that ends in a failed assert, on which the loop fails the same assert in the wrong
    place, after the right messages and with the right record.
   */
  lemma AbortsAlike(s: State)
    requires Valid(s) && s.readingState == 0
    ensures var buffer := [0x81, 1, 65, 0x81, 2, 0, 9, 2, 0, 5];
      |Decode(s, buffer).messages| == 2 && Decode(s, buffer).aborted && DeliversDecoded(s, buffer)
  {
    hide Receive, Decode, Loop;
    var buffer: seq<byte> := [0x81, 1, 65, 0x81, 2, 0, 9, 2, 0, 5];
    assert buffer[0..] == buffer == [0x81, 1] + [65] + buffer[3..];
    assert buffer[3..] == [0x81, 2] + [0, 9] + buffer[7..];
    assert buffer[3..][4..] == buffer[7..] == [2, 0] + [5];
    assert buffer[4..] == [2, 0] + buffer[6..];
    PlainFrame(s, 0x81, [65], buffer[3..]);
    var t1 := Receive(s, buffer).state;
    var s1 := Delivered(t1);
    PlainFrame(s1, 0x81, [0, 9], buffer[7..]);
    var t2 := Receive(s1, buffer[3..]).state;
    var s2 := Delivered(t2);
    PlainAbort(s2, 2, [5]);
    PlainAbort(s2, 2, buffer[6..]);
    hide Headed;
    DecodeUnfold(s, buffer);
    DecodeUnfold(s1, buffer[3..]);
    DecodeUnfold(s2, buffer[7..]);
    LoopsTwo(s, buffer, 3, t1, 4, t2, Feeding(Headed(s2, 2, 0), 2, Abort));
    assert Comes(Loop(s, buffer, 3), Decode(s, buffer));
  }

  /** The beginning of a short frame without a key: one byte of several. */
  lemma PlainWaits(s: State, flags: byte, l: byte, b: byte)
    requires Valid(s) && s.readingState == 0 && 2 <= l < 126
    ensures var t := Headed(s, flags, l);
      Receive(s, [flags, l] + [b]) == Feeding(t.(payload := t.payload[0 := b], bufferPos := 1), 3, More)
  {
    var t := Headed(s, flags, l);
    FeedPlainHeader(s, flags, l, [b]);
    FeedOne(t, b, []);
    assert [b] + [] == [b];
  }

  /** The record after the header of a one-byte frame with a key, when the payload byte is waiting. */
  function Keyed(s: State, flags: byte, key: seq<byte>): State
    requires |key| == 4 && |s.bufferTmp| == 16
  {
    s.(flags := flags, lenByte := 0x81, useMask := true, size := 1, readingState := 4, bufferPos := 0,
       mask := key, bufferTmp := key + s.bufferTmp[4..])
  }

  lemma FeedKeyedHeader(s: State, flags: byte, key: seq<byte>, b: byte, rest: seq<byte>)
    requires Valid(s) && s.readingState == 0 && |key| == 4
    ensures Feed(s, [flags, 0x81] + (key + ([b] + rest))) == Shift(6, Feed(Keyed(s, flags, key), [b] + rest))
  {
    hide Feed;
    var later := key + ([b] + rest);
    FeedOne(s, flags, [0x81] + later);
    assert [flags, 0x81] + later == [flags] + ([0x81] + later);
    var s1 := Iterate(s, flags).state;
    FeedOne(s1, 0x81, later);
    var s2 := Iterate(s1, 0x81).state;
    FeedNone(s2, later);
    KeyBytes(Iterate(s2, later[0]).state, key, [b] + rest);
  }

  lemma KeyBytes(s: State, key: seq<byte>, rest: seq<byte>)
    requires Valid(s) && s.readingState == 3 && s.bufferPos == 0 && s.useMask && |key| == 4
    ensures Feed(s, key + rest) == Shift(4, Feed(
      s.(readingState := 4, mask := key, bufferTmp := key + s.bufferTmp[4..]), rest))
  {
    hide Feed;
    var a, b, c, d := key[0], key[1], key[2], key[3];
    assert key + rest == [a] + ([b] + ([c] + ([d] + rest)));
    FeedOne(s, a, [b] + ([c] + ([d] + rest)));
    var s1 := Iterate(s, a).state;
    FeedOne(s1, b, [c] + ([d] + rest));
    var s2 := Iterate(s1, b).state;
    FeedOne(s2, c, [d] + rest);
    var s3 := Iterate(s2, c).state;
    FeedOne(s3, d, rest);
    var tmp := s.bufferTmp[0 := a][1 := b][2 := c][3 := d];
    assert tmp == key + s.bufferTmp[4..] && tmp[..4] == key;
  }

  /** A one-byte frame with a key. */
  lemma KeyedFrame(s: State, flags: byte, key: seq<byte>, b: byte, rest: seq<byte>)
    requires Valid(s) && s.readingState == 0 && |key| == 4
    ensures Receive(s, [flags, 0x81] + (key + ([b] + rest)))
      == Feeding(Keyed(s, flags, key).(readingState := 0, payload := [BitXor(b, key[0])]), 7, Done)
  {
    FeedKeyedHeader(s, flags, key, b, rest);
    AllocatePayload(Keyed(s, flags, key), [b], rest);
    hide Feed;
    assert Xor([b], key) == [BitXor(b, key[0])];
  }

  lemma BitXorOf64And1()
    ensures BitXor(64, 1) == 65
  {
    Pow2Of8();
    assert XorBits(4, 0, 4) == 4;
    assert XorBits(64, 1, 8) == 65;
  }

  /** An unmasked frame, two bytes long, of which one is missing, after an earlier masked one. */
  function MidFrame(): (s: State)
    ensures Valid(s)
  {
    State(0x81, 2, 2, [1, 65, 0x81, 5], 5, [72, 0], 1, [1, 65, 0x81, 5] + Zeros(12), false)
  }

  /** The missing byte, two frames, and the beginning of a third. */
  const THREE: seq<byte> := [73, 0x81, 1, 0x81, 0x81, 1, 65, 0x81, 5, 64]

  function AfterFirst(): State {
    MidFrame().(readingState := 0, bufferPos := 0, payload := [72, 73])
  }

  function AfterSecond(): State {
    Headed(Delivered(AfterFirst()), 0x81, 1).(readingState := 0, payload := [0x81])
  }

  function Waiting(s: State): State
    requires Valid(s) && s.readingState == 0
  {
    var t := Headed(s, 0x81, 5);
    t.(payload := t.payload[0 := 64], bufferPos := 1)
  }

  lemma FirstTwoOfThree()
    ensures Receive(MidFrame(), THREE) == Feeding(AfterFirst(), 1, Done)
    ensures Valid(Delivered(AfterFirst()))
    ensures Receive(Delivered(AfterFirst()), THREE[1..]) == Feeding(AfterSecond(), 3, Done)
    ensures Valid(Delivered(AfterSecond()))
  {
    hide Receive;
    assert THREE == [73] + THREE[1..];
    assert Receive(MidFrame(), THREE) == Feeding(AfterFirst(), 1, Done) by {
      FirstOfThree();
    }
    assert THREE[1..] == [0x81, 1] + [0x81] + THREE[4..];
    PlainFrame(Delivered(AfterFirst()), 0x81, [0x81], THREE[4..]);
  }

  lemma FirstOfThree()
    ensures Receive(MidFrame(), [73] + THREE[1..]) == Feeding(AfterFirst(), 1, Done)
  {
    hide Feed;
    FeedPayload(MidFrame(), [72], [73], THREE[1..]);
    assert [72] + [73] == [72, 73];
  }

  /** The third frame, where it is, and its beginning after it. */
  lemma ThirdDecoded(s: State) returns (t: State)
    requires s == Delivered(AfterSecond()) && Valid(s)
    ensures Valid(t) && t.readingState == 0 && t == Headed(s, 0x81, 1).(readingState := 0, payload := [65])
    ensures Receive(s, THREE[4..]) == Feeding(t, 3, Done)
    ensures Receive(Delivered(t), THREE[7..]) == Feeding(Waiting(Delivered(t)), 3, More)
  {
    hide Receive;
    assert THREE[4..] == [0x81, 1] + [65] + THREE[7..];
    PlainFrame(s, 0x81, [65], THREE[7..]);
    t := Receive(s, THREE[4..]).state;
    assert THREE[7..] == [0x81, 5] + [64];
    PlainWaits(Delivered(t), 0x81, 5, 64);
  }

  /** What the loop takes for the third frame, with the second one's payload for its length byte. */
  lemma ThirdMisread(s: State) returns (t: State)
    requires s == Delivered(AfterSecond()) && Valid(s)
    ensures Valid(t) && t.readingState == 0 && MessageOf(t) == Message(0x81, [65])
    ensures t == Keyed(s, 0x81, s.mask).(readingState := 0, payload := [65])
    ensures Receive(s, THREE[3..]) == Feeding(t, 7, Done)
    ensures Receive(Delivered(t), THREE[7..]) == Feeding(Waiting(Delivered(t)), 3, More)
  {
    hide Receive;
    assert THREE[3..] == [0x81, 0x81] + ([1, 65, 0x81, 5] + ([64] + []));
    KeyedFrame(s, 0x81, [1, 65, 0x81, 5], 64, []);
    BitXorOf64And1();
    t := Receive(s, THREE[3..]).state;
    assert THREE[7..] == [0x81, 5] + [64];
    PlainWaits(Delivered(t), 0x81, 5, 64);
  }

  /** After both the record waits for the same bytes and holds the same. */
  lemma SameRecord(s: State, t: State, u: State)
    requires s == Delivered(AfterSecond()) && Valid(s) && Valid(t) && Valid(u)
    requires t == Headed(s, 0x81, 1).(readingState := 0, payload := [65])
    requires u == Keyed(s, 0x81, s.mask).(readingState := 0, payload := [65])
    ensures Waiting(Delivered(t)) == Waiting(Delivered(u))
  {
    assert s.mask + s.bufferTmp[4..] == s.bufferTmp;
  }

  lemma DecodesThree(s: State, b: seq<byte>, i: nat, x: State, j: nat, y: State, k: nat, z: State, last: Feeding)
    requires Valid(s) && Receive(s, b) == Feeding(x, i, Done)
    requires Receive(Delivered(x), b[i..]) == Feeding(y, j, Done)
    requires Receive(Delivered(y), b[i + j..]) == Feeding(z, k, Done)
    requires Receive(Delivered(z), b[i + j + k..]) == last && last.status == More
    ensures Decode(s, b) == Decoding([MessageOf(x), MessageOf(y), MessageOf(z)], last.state, false)
  {
    hide Receive, Decode, Delivered, MessageOf;
    assert b[i..][j..] == b[i + j..] && b[i + j..][k..] == b[i + j + k..];
    DecodeUnfold(s, b);
    DecodeUnfold(Delivered(x), b[i..]);
    DecodeUnfold(Delivered(y), b[i + j..]);
    DecodeUnfold(Delivered(z), b[i + j + k..]);
  }

  lemma LoopsThree(s: State, b: seq<byte>, i: nat, x: State, j: nat, y: State, k: nat, z: State, last: Feeding)
    requires Valid(s) && Receive(s, b) == Feeding(x, i, Done) && i < |b| && j < |b| && k < |b|
    requires Receive(Delivered(x), b[i..]) == Feeding(y, j, Done)
    requires Receive(Delivered(y), b[j..]) == Feeding(z, k, Done)
    requires Receive(Delivered(z), b[k..]) == last && last.status == More
    ensures Comes(Loop(s, b, 4), Decoding([MessageOf(x), MessageOf(y), MessageOf(z)], last.state, false))
  {
    assert b[0..] == b && Loop(s, b, 0) == Looping(s, 0, [], []);
    hide *;
    PassOn(s, b, 0, i, x);
    PassOn(s, b, 1, j, y);
    PassOn(s, b, 2, k, z);
    assert Loop(s, b, 3).messages == [MessageOf(x), MessageOf(y), MessageOf(z)];
    PassEnds(s, b, 3, last);
  }

  /**
    A call in the middle of a frame that completes three, misreads the third, and all the same
    ends with the right messages and the right record.
   */
  lemma MidFrameAlike()
    ensures |Decode(MidFrame(), THREE).messages| == 3 && !Decode(MidFrame(), THREE).aborted
    ensures DeliversDecoded(MidFrame(), THREE)
  {
    var s, x, y := MidFrame(), AfterFirst(), AfterSecond();
    FirstTwoOfThree();
    var z := ThirdDecoded(Delivered(y));
    var u := ThirdMisread(Delivered(y));
    SameRecord(Delivered(y), z, u);
    var last := Feeding(Waiting(Delivered(z)), 3, More);
    assert MessageOf(z) == MessageOf(u);
    hide Receive, Decode, Loop, MidFrame, AfterFirst, AfterSecond, Headed, Keyed, Waiting, MessageOf, Delivered;
    DecodesThree(s, THREE, 1, x, 3, y, 3, z, last);
    LoopsThree(s, THREE, 1, x, 3, y, 7, u, last);
    assert Comes(Loop(s, THREE, 4), Decode(s, THREE));
  }
}
