/**
  Section 5.2 and 5.3 of RFC 6455 as a reference encoder, and the theorem that the
  incremental decoder inverts it exactly for the non-empty payloads.
 */
module WebSocketFraming {
  import opened Prelude
  import opened WebSocketFrame

  datatype LengthForm = Bits7 | Bits16 | Bits64

  /** A frame on the wire: first octet, how the length is written, optional key, clear payload. */
  datatype WireFrame = WireFrame(flags: byte, form: LengthForm, key: Option<seq<byte>>, payload: seq<byte>)

  ghost predicate WellFormed(f: WireFrame) {
    && (f.key.Some? ==> |f.key.value| == 4)
    && |f.payload| < (match f.form case Bits7 => 126 case Bits16 => 0x1_0000 case Bits64 => TWO64)
  }

  function Code(f: WireFrame): (c: nat)
    requires WellFormed(f)
    ensures c < 128
  {
    match f.form
    case Bits7 => |f.payload|
    case Bits16 => 126
    case Bits64 => 127
  }

  function LengthByte(f: WireFrame): byte
    requires WellFormed(f)
  {
    Code(f) + (if f.key.Some? then 0x80 else 0)
  }

  /** The k-byte big-endian form of n. */
  function ToBigEndian(n: nat, k: nat): (s: seq<byte>)
    ensures |s| == k
  {
    if k == 0 then [] else ToBigEndian(n / 256, k - 1) + [n % 256]
  }

  function Extended(f: WireFrame): (s: seq<byte>)
    requires WellFormed(f)
    ensures |s| == ExtendedBytes(Code(f))
  {
    ToBigEndian(|f.payload|, ExtendedBytes(Code(f)))
  }

  function Key(f: WireFrame): seq<byte> {
    if f.key.Some? then f.key.value else []
  }

  function Masked(f: WireFrame): (p: seq<byte>)
    requires WellFormed(f)
    ensures |p| == |f.payload|
  {
    if f.key.Some? then Xor(f.payload, f.key.value) else f.payload
  }

  function Encode(f: WireFrame): (s: seq<byte>)
    requires WellFormed(f)
    ensures |s| >= 2 + |f.payload|
  {
    Header(f) + Masked(f)
  }

  lemma {:induction false} BigEndianRoundTrip(n: nat, k: nat)
    requires n < Pow256(k)
    ensures BigEndian(ToBigEndian(n, k)) == n
  {
    if k > 0 {
      BigEndianRoundTrip(n / 256, k - 1);
      assert ToBigEndian(n, k)[..k - 1] == ToBigEndian(n / 256, k - 1);
    }
  }

  lemma ExtendedValue(f: WireFrame)
    requires WellFormed(f) && Extended(f) != []
    ensures BigEndian(Extended(f)) == |f.payload|
  {
    assert Pow256(2) == 0x1_0000;
    assert Pow256(4) == Pow256(2) * 0x1_0000;
    assert Pow256(6) == Pow256(4) * 0x1_0000;
    assert Pow256(8) == Pow256(6) * 0x1_0000;
    BigEndianRoundTrip(|f.payload|, ExtendedBytes(Code(f)));
  }

  lemma XorTwice(p: seq<byte>, mask: seq<byte>)
    requires |mask| == 4
    ensures Xor(Xor(p, mask), mask) == p
  {
    forall i | 0 <= i < |p| ensures Xor(Xor(p, mask), mask)[i] == p[i] {
      BitXorTwice(p[i], KeyAt(mask, i));
    }
  }

  /** Reading `bytes` takes the loop from s to t when `rest` follows. */
  ghost predicate Leads(s: State, bytes: seq<byte>, t: State, rest: seq<byte>)
    requires Valid(s) && Valid(t)
  {
    Feed(s, bytes + rest) == Shift(|bytes|, Feed(t, rest))
  }

  lemma LeadsTransitive(s: State, a: seq<byte>, t: State, b: seq<byte>, u: State, rest: seq<byte>)
    requires Valid(s) && Valid(t) && Valid(u)
    requires Leads(s, a, t, b + rest) && Leads(t, b, u, rest)
    ensures Leads(s, a + b, u, rest)
  {
    hide Feed, Iterate;
    assert a + b + rest == a + (b + rest);
  }

  /** One consumed byte of the loop. */
  lemma FeedOne(s: State, b: byte, rest: seq<byte>)
    requires Valid(s) && Iterate(s, b).status == More && Iterate(s, b).used == 1
    ensures Feed(s, [b] + rest) == Shift(1, Feed(Iterate(s, b).state, rest))
  {
    assert ([b] + rest)[1..] == rest;
  }

  /** One turn that moves on without consuming, which the loop takes only when a byte is waiting. */
  lemma FeedNone(s: State, rest: seq<byte>)
    requires Valid(s) && rest != [] && Iterate(s, rest[0]).status == More && Iterate(s, rest[0]).used == 0
    ensures Feed(s, rest) == Feed(Iterate(s, rest[0]).state, rest)
  {
    assert rest[0..] == rest;
  }

  /** One byte of an extended length. */
  lemma LengthTurn(s: State, done: seq<byte>, b: byte)
    requires Valid(s) && s.readingState == 2 && |done| < ExtendedBytes(s.size)
    requires s.bufferPos == |done| && s.bufferTmp[..|done|] == done
    ensures Iterate(s, b).used == 1 && Iterate(s, b).status == More
    ensures var t := Iterate(s, b).state;
      && t.flags == s.flags && t.useMask == s.useMask
      && if |done| + 1 == ExtendedBytes(s.size)
         then t.readingState == 3 && t.bufferPos == 0 && t.size == BigEndian(done + [b])
         else (&& t.readingState == 2 && t.size == s.size && t.bufferPos == |done| + 1
               && t.bufferTmp[..|done| + 1] == done + [b])
  {
    assert s.bufferTmp[s.bufferPos := b][..|done| + 1] == done + [b];
  }

  /** The bytes of an extended length still to come, after those already in the scratch buffer. */
  lemma {:induction false} FeedLength(s: State, done: seq<byte>, todo: seq<byte>, rest: seq<byte>) returns (t: State)
    requires Valid(s) && s.readingState == 2 && |done| + |todo| == ExtendedBytes(s.size) && todo != []
    requires s.bufferPos == |done| && s.bufferTmp[..|done|] == done
    ensures Valid(t) && t.readingState == 3 && t.bufferPos == 0 && t.size == BigEndian(done + todo)
    ensures t.useMask == s.useMask && t.flags == s.flags
    ensures Leads(s, todo, t, rest)
    decreases |todo|
  {
    hide Feed;
    var b, later := todo[0], todo[1..];
    LengthTurn(s, done, b);
    FeedOne(s, b, later + rest);
    assert todo + rest == [b] + (later + rest);
    assert done + todo == done + [b] + later;
    t := Iterate(s, b).state;
    if later == [] {
      assert later + rest == rest;
      assert done + [b] + later == done + [b];
    } else {
      t := FeedLength(t, done + [b], later, rest);
    }
  }

  /** One byte of a masking key. */
  lemma KeyTurn(s: State, done: seq<byte>, b: byte)
    requires Valid(s) && s.readingState == 3 && s.useMask && |done| < 4
    requires s.bufferPos == |done| && s.bufferTmp[..|done|] == done
    ensures Iterate(s, b).used == 1 && Iterate(s, b).status == More
    ensures var t := Iterate(s, b).state;
      && t.flags == s.flags && t.useMask == s.useMask && t.size == s.size
      && if |done| == 3
         then t.readingState == 4 && t.mask == done + [b]
         else t.readingState == 3 && t.bufferPos == |done| + 1 && t.bufferTmp[..|done| + 1] == done + [b]
  {
    assert s.bufferTmp[s.bufferPos := b][..|done| + 1] == done + [b];
  }

  /** The bytes of a masking key still to come. */
  lemma {:induction false} FeedKey(s: State, done: seq<byte>, todo: seq<byte>, rest: seq<byte>) returns (t: State)
    requires Valid(s) && s.readingState == 3 && s.useMask && |done| + |todo| == 4 && todo != []
    requires s.bufferPos == |done| && s.bufferTmp[..|done|] == done
    ensures Valid(t) && t.readingState == 4 && t.mask == done + todo
    ensures t.size == s.size && t.useMask && t.flags == s.flags
    ensures Leads(s, todo, t, rest)
    decreases |todo|
  {
    hide Feed;
    var b, later := todo[0], todo[1..];
    KeyTurn(s, done, b);
    FeedOne(s, b, later + rest);
    assert todo + rest == [b] + (later + rest);
    assert done + todo == done + [b] + later;
    t := Iterate(s, b).state;
    if later == [] {
      assert later + rest == rest;
      assert done + [b] + later == done + [b];
    } else {
      t := FeedKey(t, done + [b], later, rest);
    }
  }

  /** The payload bytes still to come, into a payload buffer of the right size. */
  lemma {:induction false} FeedPayload(s: State, done: seq<byte>, todo: seq<byte>, rest: seq<byte>)
    requires Valid(s) && s.readingState == 5 && s.size == |done| + |todo| && todo != []
    requires s.bufferPos == |done| && s.payload[..|done|] == done
    ensures Feed(s, todo + rest)
      == Feeding(s.(readingState := 0, bufferPos := s.size, payload := done + todo), |todo|, Done)
    decreases |todo|
  {
    var b, later := todo[0], todo[1..];
    var filled := s.payload[s.bufferPos := b];
    assert filled[..|done| + 1] == done + [b];
    assert todo + rest == [b] + (later + rest);
    assert done + todo == done + [b] + later;
    if later == [] {
      assert filled == done + todo;
    } else {
      FeedOne(s, b, later + rest);
      FeedPayload(Iterate(s, b).state, done + [b], later, rest);
    }
  }

  /** The first two bytes. */
  lemma FeedStart(s: State, f: WireFrame, rest: seq<byte>) returns (t: State)
    requires Valid(s) && s.readingState == 0 && WellFormed(f)
    ensures Valid(t) && t.readingState == 2 && t.bufferPos == 0 && t.flags == f.flags
    ensures t.useMask == f.key.Some? && t.size == Code(f)
    ensures Leads(s, [f.flags, LengthByte(f)], t, rest)
  {
    hide Feed;
    var l := LengthByte(f);
    FeedOne(s, f.flags, [l] + rest);
    var s1 := Iterate(s, f.flags).state;
    FeedOne(s1, l, rest);
    t := Iterate(s1, l).state;
    assert [f.flags, l] + rest == [f.flags] + ([l] + rest);
  }

  /** The whole length field, whichever form it has, once something follows it. */
  lemma FeedLengthField(s: State, f: WireFrame, rest: seq<byte>) returns (t: State)
    requires Valid(s) && s.readingState == 2 && s.bufferPos == 0 && WellFormed(f) && s.size == Code(f) && rest != []
    ensures Valid(t) && t.readingState == 3 && t.bufferPos == 0 && t.size == |f.payload|
    ensures t.useMask == s.useMask && t.flags == s.flags
    ensures Leads(s, Extended(f), t, rest)
  {
    var ext := Extended(f);
    if ext == [] {
      FeedNone(s, rest);
      t := Iterate(s, rest[0]).state;
      assert ext + rest == rest;
    } else {
      ExtendedValue(f);
      t := FeedLength(s, [], ext, rest);
      assert [] + ext == ext;
    }
  }

  /** The whole key field. */
  lemma FeedKeyField(s: State, f: WireFrame, rest: seq<byte>) returns (t: State)
    requires Valid(s) && s.readingState == 3 && s.bufferPos == 0 && WellFormed(f) && rest != []
    requires s.useMask == f.key.Some?
    ensures Valid(t) && t.readingState == 4 && t.size == s.size && t.flags == s.flags
    ensures t.useMask == s.useMask && (t.useMask ==> t.mask == f.key.value)
    ensures Leads(s, Key(f), t, rest)
  {
    var key := Key(f);
    if f.key.None? {
      FeedNone(s, rest);
      t := Iterate(s, rest[0]).state;
      assert key + rest == rest;
    } else {
      t := FeedKey(s, [], key, rest);
      assert [] + key == key;
    }
  }

  function Header(f: WireFrame): seq<byte>
    requires WellFormed(f)
  {
    [f.flags, LengthByte(f)] + (Extended(f) + Key(f))
  }

  /** The header of f brings any idle decoder to the state that allocates the payload. */
  lemma FeedHeader(s: State, f: WireFrame, rest: seq<byte>) returns (t: State)
    requires Valid(s) && s.readingState == 0 && WellFormed(f) && rest != []
    ensures Valid(t) && t.readingState == 4 && t.flags == f.flags && t.size == |f.payload|
    ensures t.useMask == f.key.Some? && (t.useMask ==> t.mask == f.key.value)
    ensures Leads(s, Header(f), t, rest)
  {
    hide Feed, Iterate;
    var s2 := FeedStart(s, f, Extended(f) + (Key(f) + rest));
    var s3 := FeedLengthField(s2, f, Key(f) + rest);
    t := FeedKeyField(s3, f, rest);
    LeadsTransitive(s2, Extended(f), s3, Key(f), t, rest);
    assert Extended(f) + Key(f) + rest == Extended(f) + (Key(f) + rest);
    LeadsTransitive(s, [f.flags, LengthByte(f)], s2, Extended(f) + Key(f), t, rest);
  }

  /**
    Inversion, for every frame, every form and key, and whatever an earlier frame left in the
    idle decoder: the decoder returns the frame and consumes exactly its bytes if and only if
    the payload is not empty.
   */
  lemma DecodeInvertsEncode(s: State, f: WireFrame, rest: seq<byte>)
    requires Valid(s) && s.readingState == 0 && WellFormed(f)
    ensures var r := Receive(s, Encode(f) + rest);
      (|f.payload| > 0) <==>
        && r.status == Done
        && r.used == |Encode(f)|
        && r.state.flags == f.flags
        && r.state.payload == f.payload
  {
    hide Feed, Iterate;
    if f.payload == [] {
      EmptyPayload(s, f, rest);
    } else {
      NonEmptyPayload(s, f, rest);
    }
  }

  lemma NonEmptyPayload(s: State, f: WireFrame, rest: seq<byte>)
    requires Valid(s) && s.readingState == 0 && WellFormed(f) && f.payload != []
    ensures var r := Receive(s, Encode(f) + rest);
      && r.status == Done && r.used == |Encode(f)|
      && r.state.flags == f.flags && r.state.payload == f.payload
  {
    hide Feed;
    var m := Masked(f);
    var t := FeedHeader(s, f, m + rest);
    AllocatePayload(t, m, rest);
    assert Encode(f) + rest == Header(f) + (m + rest);
    if f.key.Some? {
      XorTwice(f.payload, f.key.value);
    }
  }

  /** From the allocation to the last payload byte; nothing an earlier frame left behind survives. */
  lemma AllocatePayload(t: State, m: seq<byte>, rest: seq<byte>)
    requires Valid(t) && t.readingState == 4 && t.size == |m| && m != []
    ensures Feed(t, m + rest) == Feeding(t.(readingState := 0, bufferPos := |m|, payload := m), |m|, Done)
  {
    hide Feed;
    FeedNone(t, m + rest);
    FeedPayload(Iterate(t, m[0]).state, [], m, rest);
    assert [] + m == m;
  }

  /**
    An empty payload never completes: the decoder waits after the header, and the next byte,
    whatever it is, trips the bounds assert.
   */
  lemma EmptyPayload(s: State, f: WireFrame, rest: seq<byte>)
    requires Valid(s) && s.readingState == 0 && WellFormed(f) && f.payload == []
    ensures Receive(s, Encode(f) + rest).status == if rest == [] then More else Abort
  {
    var header := Header(f);
    assert Masked(f) == [];
    assert Encode(f) + rest == header + rest;
    if rest == [] {
      // One more byte would abort, and only after every header byte was consumed.
      var t := FeedHeader(s, f, [0]);
      AbortAt(t, [0]);
      FeedPrefix(s, header, [0]);
      assert header + rest == header;
    } else {
      var t := FeedHeader(s, f, rest);
      AbortAt(t, rest);
    }
  }

  lemma AbortAt(t: State, rest: seq<byte>)
    requires Valid(t) && t.readingState == 4 && t.size == 0 && rest != []
    ensures Feed(t, rest).status == Abort && Feed(t, rest).used == 0
  {
    FeedNone(t, rest);
  }

  /** Feeding in two parts is feeding the whole, as long as the first part completes nothing. */
  lemma {:induction false} FeedPrefix(s: State, a: seq<byte>, b: seq<byte>)
    requires Valid(s)
    ensures Feed(s, a + b) == if Feed(s, a).status == More
      then Shift(|a|, Feed(Feed(s, a).state, b)) else Feed(s, a)
    decreases |a|, 5 - s.readingState
  {
    hide Iterate;
    if a == [] {
      assert a + b == b;
    } else {
      var t := Iterate(s, a[0]);
      if t.status == More {
        FeedPrefix(t.state, a[t.used..], b);
        assert (a + b)[t.used..] == a[t.used..] + b;
      }
    }
  }

  /**
    Chunk invariance: any split of the input whose first part completes no frame gives the
    same state, outcome and total count as the whole; otherwise the second part is untouched.
   */
  lemma ChunkInvariance(s: State, a: seq<byte>, b: seq<byte>)
    requires Valid(s)
    ensures Receive(s, a).status == More ==>
      Receive(s, a + b) == Shift(|a|, Receive(Receive(s, a).state, b))
    ensures Receive(s, a).status != More ==> Receive(s, a + b) == Receive(s, a)
  {
    FeedPrefix(s, a, b);
  }

  /** The second octet tells the length form and whether there is a key. */
  lemma LengthByteTells(f: WireFrame, g: WireFrame)
    requires WellFormed(f) && WellFormed(g) && LengthByte(f) == LengthByte(g)
    ensures f.form == g.form && f.key.Some? == g.key.Some? && Code(f) == Code(g)
  {
  }

  /** Framing is uniquely decodable: no two frames can start the same stream. */
  lemma UniquelyDecodable(f: WireFrame, x: seq<byte>, g: WireFrame, y: seq<byte>)
    requires WellFormed(f) && WellFormed(g) && f.payload != [] && g.payload != []
    requires Encode(f) + x == Encode(g) + y
    ensures f == g && x == y
  {
    var s := State(0, 0, 0, [0, 0, 0, 0], 0, [], 0, seq(16, _ => 0), false);
    DecodeInvertsEncode(s, f, x);
    DecodeInvertsEncode(s, g, y);
    assert x == (Encode(f) + x)[|Encode(f)|..];
    assert y == (Encode(g) + y)[|Encode(g)|..];
    hide Receive, LengthByte;
    assert Encode(f) == (Encode(f) + x)[..|Encode(f)|] == Encode(g);
    SameKey(f, g);
  }

  lemma SameKey(f: WireFrame, g: WireFrame)
    requires WellFormed(f) && WellFormed(g) && Encode(f) == Encode(g) && f.payload == g.payload && f.flags == g.flags
    ensures f == g
  {
    var n := |Encode(f)| - |f.payload|;
    hide Header, Masked;
    assert Header(f) == Encode(f)[..n] == Encode(g)[..n] == Header(g);
    hide Encode;
    SameHeader(f, g);
  }

  lemma SameHeader(f: WireFrame, g: WireFrame)
    requires WellFormed(f) && WellFormed(g) && f.payload == g.payload && Header(f) == Header(g)
    ensures f.form == g.form && f.key == g.key
  {
    assert LengthByte(f) == Header(f)[1] == Header(g)[1] == LengthByte(g);
    LengthByteTells(f, g);
    assert Extended(f) == Extended(g);
    hide LengthByte, Extended;
    assert Key(f) == Header(f)[2 + |Extended(f)|..];
    assert Key(g) == Header(g)[2 + |Extended(g)|..];
  }

  // ---- What the decoder accepts ----

  lemma {:induction false} BigEndianWrites(s: seq<byte>)
    ensures ToBigEndian(BigEndian(s), |s|) == s
  {
    if s != [] {
      var init, last := s[..|s| - 1], s[|s| - 1];
      BigEndianWrites(init);
      assert BigEndian(s) / 256 == BigEndian(init) && BigEndian(s) % 256 == last;
      assert s == init + [last];
    }
  }

  function Zeros(n: nat): seq<byte> {
    seq(n, _ => 0)
  }

  /** The form and the value of a length field that starts with this code. */
  function FormOf(code: nat): LengthForm {
    if code == 126 then Bits16 else if code == 127 then Bits64 else Bits7
  }

  function LengthOf(code: nat, ext: seq<byte>): nat {
    if ext == [] then code else BigEndian(ext)
  }

  /** A frame from its parts: the payload is m, unmasked. */
  lemma FrameOfParts(flags: byte, l: byte, ext: seq<byte>, key: seq<byte>, m: seq<byte>) returns (f: WireFrame)
    requires |ext| == ExtendedBytes(l % 0x80) && |key| == (if l >= 0x80 then 4 else 0)
    requires |m| == LengthOf(l % 0x80, ext)
    ensures WellFormed(f) && f.flags == flags && |f.payload| == |m|
    ensures Encode(f) == [flags, l] + (ext + key) + m
  {
    var code := l % 0x80;
    var k := if l >= 0x80 then Some(key) else None;
    f := WireFrame(flags, FormOf(code), k, if k.Some? then Xor(m, key) else m);
    if ext != [] {
      BigEndianBound(ext);
      BigEndianBelowTwo64(ext);
      assert Pow256(2) == 0x1_0000;
    }
    assert WellFormed(f) && Code(f) == code && LengthByte(f) == l;
    BigEndianWrites(ext);
    if k.Some? {
      XorTwice(m, key);
    }
    assert Extended(f) == ext && Key(f) == key && Masked(f) == m;
  }

  /** The frame at the start of an input, whose payload is filled up with zeros if it is too short. */
  lemma FrameAtStart(long: seq<byte>) returns (f: WireFrame, whole: seq<byte>)
    requires |long| >= 14
    ensures WellFormed(f) && long <= whole && Encode(f) <= whole
  {
    hide Encode, WellFormed, LengthOf;
    var l := long[1];
    var e := 2 + ExtendedBytes(l % 0x80);
    var h := e + if l >= 0x80 then 4 else 0;
    var ext, key := long[2..e], long[e..h];
    var n := LengthOf(l % 0x80, ext);
    whole := long + Zeros(n);
    var m := whole[h..h + n];
    f := FrameOfParts(long[0], l, ext, key, m);
    assert ext + key == long[2..h];
    assert [long[0], l] + long[2..h] == long[..h] == whole[..h];
    assert whole[..h] + m == whole[..h + n];
  }

  /** Every input starts with a frame or is the beginning of one. */
  lemma FrameBeneath(buffer: seq<byte>) returns (f: WireFrame, pad: seq<byte>, rest: seq<byte>)
    ensures WellFormed(f) && buffer + pad == Encode(f) + rest && (pad == [] || rest == [])
  {
    hide Encode, WellFormed;
    var whole;
    f, whole := FrameAtStart(buffer + Zeros(14));
    var n := |Encode(f)|;
    assert buffer <= whole;
    if n <= |buffer| {
      pad, rest := [], buffer[n..];
      assert buffer[..n] == whole[..n] == Encode(f);
    } else {
      pad, rest := whole[|buffer|..n], [];
      assert whole[..n] == whole[..|buffer|] + pad;
    }
  }

  /** What an idle decoder completes is a frame: the encoding of what it returns, in some form. */
  lemma DecodedIsEncoded(s: State, buffer: seq<byte>) returns (f: WireFrame, rest: seq<byte>)
    requires Valid(s) && s.readingState == 0 && Receive(s, buffer).status == Done
    ensures WellFormed(f) && f.payload != [] && buffer == Encode(f) + rest
    ensures var r := Receive(s, buffer);
      r.used == |Encode(f)| && r.state.flags == f.flags && r.state.payload == f.payload
  {
    hide Receive, Encode, WellFormed;
    var pad;
    f, pad, rest := FrameBeneath(buffer);
    ChunkInvariance(s, buffer, pad);
    if f.payload == [] {
      EmptyPayload(s, f, rest);
    } else {
      NonEmptyPayload(s, f, rest);
    }
    assert buffer + [] == buffer;
  }

  /** The stream starts with the encoding of a frame that has a payload. */
  ghost predicate Starts(buffer: seq<byte>, f: WireFrame) {
    WellFormed(f) && f.payload != [] && Encode(f) <= buffer
  }

  /** An idle decoder completes a frame on exactly the inputs that start with an encoded one. */
  lemma CompletesIffEncoded(s: State, buffer: seq<byte>)
    requires Valid(s) && s.readingState == 0
    ensures Receive(s, buffer).status == Done <==> exists f :: Starts(buffer, f)
  {
    hide Receive, Encode;
    if Receive(s, buffer).status == Done {
      var f, rest := DecodedIsEncoded(s, buffer);
      assert Starts(buffer, f);
    }
    if f :| Starts(buffer, f) {
      assert buffer == Encode(f) + buffer[|Encode(f)|..];
      NonEmptyPayload(s, f, buffer[|Encode(f)|..]);
    }
  }

  // ---- In plain octets ----

  /** Section 5.2 of RFC 6455: where the length ends, where the payload starts, and how long it is. */
  function LengthEnd(b: seq<byte>): nat
    requires |b| >= 2
  {
    if b[1] % 128 == 126 then 4 else if b[1] % 128 == 127 then 10 else 2
  }

  function PayloadStart(b: seq<byte>): nat
    requires |b| >= 2
  {
    LengthEnd(b) + if b[1] >= 128 then 4 else 0
  }

  function Announced(b: seq<byte>): nat
    requires |b| >= 2 && |b| >= LengthEnd(b)
  {
    if b[1] % 128 < 126 then b[1] % 128
    else if b[1] % 128 == 126 then Pair(b, 2)
    else 0x1_0000_0000_0000 * Pair(b, 2) + 0x1_0000_0000 * Pair(b, 4) + 0x1_0000 * Pair(b, 6) + Pair(b, 8)
  }

  /** Two octets of a number, the higher first. */
  function Pair(b: seq<byte>, i: nat): nat
    requires i + 2 <= |b|
  {
    0x100 * (b[i] as int) + b[i + 1]
  }

  lemma BigEndianPair(s: seq<byte>, n: nat)
    requires n + 2 <= |s|
    ensures BigEndian(s[..n + 2]) == 0x1_0000 * BigEndian(s[..n]) + Pair(s, n)
  {
    assert s[..n + 2][..n + 1] == s[..n + 1] && s[..n + 1][..n] == s[..n];
  }

  lemma BigEndianOctets(s: seq<byte>)
    ensures |s| == 2 ==> BigEndian(s) == Pair(s, 0)
    ensures |s| == 8 ==>
      BigEndian(s) == 0x1_0000_0000_0000 * Pair(s, 0) + 0x1_0000_0000 * Pair(s, 2) + 0x1_0000 * Pair(s, 4) + Pair(s, 6)
  {
    assert s[..|s|] == s;
    if |s| == 2 {
      BigEndianPair(s, 0);
    } else if |s| == 8 {
      BigEndianPair(s, 0);
      BigEndianPair(s, 2);
      BigEndianPair(s, 4);
      BigEndianPair(s, 6);
    }
    hide BigEndian;
  }

  lemma HeaderParts(f: WireFrame)
    requires WellFormed(f)
    ensures var b := Encode(f); var e := LengthEnd(b);
      && b[0] == f.flags && b[1] == LengthByte(f) && e == 2 + |Extended(f)| && PayloadStart(b) == |Header(f)| <= |b|
      && b[2..e] == Extended(f) && b[e..PayloadStart(b)] == Key(f) && b[PayloadStart(b)..] == Masked(f)
  {
    var b := Encode(f);
    assert b[1] == LengthByte(f);
    hide Extended, Masked;
    var x, k, m := Extended(f), Key(f), Masked(f);
    assert |x| == ExtendedBytes(Code(f));
    hide Encode, Header;
    assert b == [f.flags, LengthByte(f)] + (x + k) + m by {
      EncodeParts(f);
    }
  }

  lemma EncodeParts(f: WireFrame)
    requires WellFormed(f)
    ensures Encode(f) == [f.flags, LengthByte(f)] + (Extended(f) + Key(f)) + Masked(f)
    ensures |Header(f)| == 2 + |Extended(f)| + |Key(f)|
  {
    hide Extended, Masked, Key;
  }

  /** The parts of an encoded frame, octet by octet. */
  lemma EncodedOctets(f: WireFrame)
    requires WellFormed(f)
    ensures var b := Encode(f);
      && b[0] == f.flags && PayloadStart(b) <= |b| && Announced(b) == |f.payload| == |b| - PayloadStart(b)
      && (b[1] >= 128 <==> f.key.Some?)
      && (f.key.Some? ==> b[LengthEnd(b)..LengthEnd(b) + 4] == f.key.value)
      && b[PayloadStart(b)..] == Masked(f)
  {
    var b := Encode(f);
    HeaderParts(f);
    if Extended(f) != [] {
      ExtendedValue(f);
      BigEndianOctets(Extended(f));
    }
    hide Encode, Header, Extended, Masked;
  }

  /** The octets that decide where a frame ends are the same in whatever follows them. */
  lemma SameOctets(b: seq<byte>, whole: seq<byte>)
    requires |b| >= 2 && LengthEnd(b) <= |b| && b <= whole
    ensures LengthEnd(whole) == LengthEnd(b) && PayloadStart(whole) == PayloadStart(b)
    ensures Announced(whole) == Announced(b)
  {
  }

  /** The octets of a whole frame are there, at least one of them payload. */
  predicate Complete(b: seq<byte>) {
    |b| >= 2 && |b| >= LengthEnd(b) && Announced(b) > 0 && |b| >= PayloadStart(b) + Announced(b)
  }

  lemma EncodedIsComplete(f: WireFrame, rest: seq<byte>)
    requires WellFormed(f) && f.payload != []
    ensures Complete(Encode(f) + rest)
  {
    EncodedOctets(f);
    hide Encode, WellFormed, Masked, Announced;
    SameOctets(Encode(f), Encode(f) + rest);
  }

  /** An idle decoder completes a frame exactly when all its octets are there. */
  lemma CompletesIffComplete(s: State, buffer: seq<byte>)
    requires Valid(s) && s.readingState == 0
    ensures Receive(s, buffer).status == Done <==> Complete(buffer)
  {
    hide Receive, Encode, WellFormed, Masked;
    if Receive(s, buffer).status == Done {
      var f, rest := DecodedIsEncoded(s, buffer);
      EncodedIsComplete(f, rest);
    } else if Complete(buffer) {
      var f, pad, rest := FrameBeneath(buffer);
      EncodedOctets(f);
      SameOctets(buffer, buffer + pad);
      SameOctets(Encode(f), buffer + pad);
      assert buffer == Encode(f) + buffer[|Encode(f)|..];
      NonEmptyPayload(s, f, buffer[|Encode(f)|..]);
    }
  }

  /**
    What it completes, in plain octets: octet i of the payload is octet i after the header, or
    the exclusive or of that and octet i modulo 4 of the key, the last four octets of the header.
   */
  lemma WireFormat(s: State, buffer: seq<byte>)
    requires Valid(s) && s.readingState == 0 && Receive(s, buffer).status == Done
    ensures Complete(buffer)
    ensures var r, n := Receive(s, buffer), Announced(buffer);
      && r.state.flags == buffer[0] && |r.state.payload| == n
      && r.used == PayloadStart(buffer) + n
      && forall i :: 0 <= i < n ==> (
           r.state.payload[i] ==
             if buffer[1] < 128 then buffer[PayloadStart(buffer) + i]
             else BitXor(buffer[PayloadStart(buffer) + i], buffer[LengthEnd(buffer) + i % 4]))
  {
    CompletesIffComplete(s, buffer);
    hide Receive, Encode, WellFormed, Announced, BitXor;
    var f, rest := DecodedIsEncoded(s, buffer);
    var b, h, n := Encode(f), PayloadStart(buffer), |f.payload|;
    EncodedOctets(f);
    SameOctets(b, buffer);
    assert PayloadStart(buffer) == LengthEnd(buffer) + if buffer[1] < 128 then 0 else 4;
    forall i | 0 <= i < n ensures f.payload[i] ==
        if buffer[1] < 128 then buffer[h + i] else BitXor(buffer[h + i], buffer[LengthEnd(buffer) + i % 4]) {
      assert buffer[h + i] == b[h + i] == Masked(f)[i];
      if f.key.Some? {
        BitXorTwice(f.payload[i], f.key.value[i % 4]);
        assert buffer[LengthEnd(buffer) + i % 4] == b[LengthEnd(b)..LengthEnd(b) + 4][i % 4] == f.key.value[i % 4];
      }
    }
  }

  // ---- How far into a frame the decoder is ----

  /** The record agrees with the second byte of the frame it is in. */
  ghost predicate Tracked(s: State) {
    && (s.readingState >= 2 ==> s.useMask == (s.lenByte >= 0x80))
    && (s.readingState == 2 ==> s.size == s.lenByte % 0x80)
    && (s.readingState == 3 && !s.useMask ==> s.bufferPos == 0)
    && (s.readingState == 4 ==> s.bufferPos == 0)
  }

  /** How many bytes of the current frame were read. */
  function Taken(s: State): nat {
    var ext, key := ExtendedBytes(s.lenByte % 0x80), if s.useMask then 4 else 0;
    match s.readingState
    case 0 => 0
    case 1 => 1
    case 2 => 2 + s.bufferPos
    case 3 => 2 + ext + s.bufferPos
    case _ => 2 + ext + key + s.bufferPos
  }

  lemma IterateTakes(s: State, b: byte)
    requires Valid(s) && Tracked(s) && Iterate(s, b).status == More
    ensures var t := Iterate(s, b); Tracked(t.state) && Taken(t.state) == Taken(s) + t.used
  {
  }

  /** The record tells how much of the frame was read. */
  lemma {:induction false} FeedTakes(s: State, buffer: seq<byte>)
    requires Valid(s) && Tracked(s) && Feed(s, buffer).status == More
    ensures Taken(Feed(s, buffer).state) == Taken(s) + |buffer|
    decreases |buffer|, 5 - s.readingState
  {
    if buffer != [] {
      IterateTakes(s, buffer[0]);
      var t := Iterate(s, buffer[0]);
      hide Iterate, Taken, Tracked;
      FeedTakes(t.state, buffer[t.used..]);
    }
  }
}
