/**
  The incremental WebSocket frame decoder.

  `State` is the record kept between calls, `Iterate` is one turn of the byte loop,
  `Feed` the loop and `Receive` the whole call. Class `Frame` carries the same fields
  mutably and its `ReceiveData` is proved against `Receive`.
 */
module WebSocketFrame {
  import opened Prelude

  type byte = b: int | 0 <= b < 256

  /** The fields of the frame record. `size` is a uint64, which no decoded length exceeds. */
  datatype State = State(
    flags: byte, lenByte: byte, size: nat, mask: seq<byte>, readingState: nat,
    payload: seq<byte>, bufferPos: nat, bufferTmp: seq<byte>, useMask: bool)

  /** More: the input ran out. Done: a frame completed. Abort: one of the source's asserts failed. */
  datatype Status = More | Done | Abort

  datatype Feeding = Feeding(state: State, used: nat, status: Status)

  /** How many bytes of extended length follow a given 7-bit length code. */
  function ExtendedBytes(code: nat): nat {
    if code == 126 then 2 else if code == 127 then 8 else 0
  }

  ghost predicate Valid(s: State) {
    && |s.mask| == 4 && |s.bufferTmp| == 16
    && s.readingState <= 5
    && s.size < TWO64
    && (s.readingState == 2 ==> s.size < 128 && (s.bufferPos == 0 || s.bufferPos < ExtendedBytes(s.size)))
    && (s.readingState == 3 ==> s.bufferPos < 4)
    && (s.readingState == 5 ==> |s.payload| == s.size && (s.bufferPos == 0 || s.bufferPos < s.size))
  }

  /** Big-endian value of a byte sequence, as be16toh and be64toh read it. */
  function BigEndian(s: seq<byte>): nat {
    if s == [] then 0 else 256 * BigEndian(s[..|s| - 1]) + s[|s| - 1]
  }

  function Pow256(k: nat): nat {
    if k == 0 then 1 else 256 * Pow256(k - 1)
  }

  lemma {:induction false} BigEndianBound(s: seq<byte>)
    ensures BigEndian(s) < Pow256(|s|)
  {
    if s != [] {
      BigEndianBound(s[..|s| - 1]);
    }
  }

  lemma BigEndianBelowTwo64(s: seq<byte>)
    requires |s| == 2 || |s| == 8
    ensures BigEndian(s) < TWO64
  {
    BigEndianBound(s);
    assert Pow256(2) == 256 * 256;
    assert Pow256(4) == Pow256(2) * 65536;
    assert Pow256(6) == Pow256(4) * 65536;
    assert Pow256(8) == Pow256(6) * 65536;
  }

  /** std::string::resize: keeps the old bytes that fit and zero-fills the rest. */
  function Resize(p: seq<byte>, n: nat): (r: seq<byte>)
    ensures |r| == n
    ensures forall i :: 0 <= i < n ==> r[i] == if i < |p| then p[i] else 0
  {
    if n <= |p| then p[..n] else p + seq(n - |p|, _ => 0)
  }

  /** Bitwise exclusive or of two numbers of at most `bits` bits. */
  function XorBits(a: nat, b: nat, bits: nat): (x: nat)
    ensures x < Pow2(bits)
  {
    if bits == 0 then 0 else (if a % 2 == b % 2 then 0 else 1) + 2 * XorBits(a / 2, b / 2, bits - 1)
  }

  function Pow2(k: nat): (n: nat)
    ensures n > 0
  {
    if k == 0 then 1 else 2 * Pow2(k - 1)
  }

  lemma Halve(half: nat, digit: nat)
    requires digit < 2
    ensures (digit + 2 * half) / 2 == half && (digit + 2 * half) % 2 == digit
  {
  }

  lemma {:induction false} XorBitsTwice(a: nat, b: nat, bits: nat)
    requires a < Pow2(bits)
    ensures XorBits(XorBits(a, b, bits), b, bits) == a
  {
    if bits > 0 {
      XorBitsTwice(a / 2, b / 2, bits - 1);
      var half, digit := XorBits(a / 2, b / 2, bits - 1), if a % 2 == b % 2 then 0 else 1;
      Halve(half, digit);
    }
  }

  lemma Pow2Of8()
    ensures Pow2(8) == 256
  {
    assert Pow2(4) == 16;
    assert Pow2(6) == 64;
  }

  function BitXor(a: byte, b: byte): byte {
    Pow2Of8();
    XorBits(a, b, 8)
  }

  lemma BitXorTwice(a: byte, b: byte)
    ensures BitXor(BitXor(a, b), b) == a
  {
    Pow2Of8();
    XorBitsTwice(a, b, 8);
  }

  lemma {:induction false} Multiples(k: nat, a: nat, b: nat)
    requires a < b
    ensures k * a + k <= k * b
  {
    if a + 1 < b {
      Multiples(k, a, b - 1);
    }
    assert k * b == k * (b - 1) + k;
  }

  lemma Quotient(x: nat, k: nat, q: nat)
    requires k > 0 && k * q <= x < k * q + k
    ensures x / k == q
  {
    var d := x / k;
    assert k * d <= x < k * d + k;
    if d > q {
      Multiples(k, q, d);
    } else if d < q {
      Multiples(k, d, q);
    }
  }

  lemma DivTwice(x: nat, k: nat)
    requires k > 0
    ensures x / (2 * k) == x / 2 / k
  {
    var q := x / 2 / k;
    assert k * q <= x / 2 < k * q + k;
    assert (2 * k) * q == 2 * (k * q);
    Quotient(x, 2 * k, q);
  }

  lemma {:induction false} XorBitsDiffer(a: nat, b: nat, bits: nat, i: nat)
    requires i < bits
    ensures XorBits(a, b, bits) / Pow2(i) % 2 == 1 <==> a / Pow2(i) % 2 != b / Pow2(i) % 2
  {
    var x := XorBits(a, b, bits);
    var half, digit := XorBits(a / 2, b / 2, bits - 1), if a % 2 == b % 2 then 0 else 1;
    assert x == digit + 2 * half;
    Halve(half, digit);
    hide XorBits;
    if i > 0 {
      var k := Pow2(i - 1);
      XorBitsDiffer(a / 2, b / 2, bits - 1, i - 1);
      assert Pow2(i) == 2 * k;
      hide Pow2;
      DivTwice(a, k);
      DivTwice(b, k);
      DivTwice(x, k);
    }
  }

  /** Masking is exclusive or: a bit of the result is set exactly where those of the two bytes differ. */
  lemma BitXorBits(a: byte, b: byte, i: nat)
    requires i < 8
    ensures BitXor(a, b) / Pow2(i) % 2 == 1 <==> a / Pow2(i) % 2 != b / Pow2(i) % 2
  {
    XorBitsDiffer(a, b, 8, i);
  }

  /** Section 5.3 of RFC 6455: octet i of the payload is masked with octet i modulo 4 of the key. */
  function KeyAt(mask: seq<byte>, i: nat): byte
    requires |mask| == 4
  {
    mask[i % 4]
  }

  function Xor(p: seq<byte>, mask: seq<byte>): (r: seq<byte>)
    requires |mask| == 4
    ensures |r| == |p|
    ensures forall i :: 0 <= i < |p| ==> r[i] == BitXor(p[i], KeyAt(mask, i))
  {
    seq(|p|, i requires 0 <= i < |p| => BitXor(p[i], KeyAt(mask, i)))
  }

  /** One turn of the loop on the byte under the cursor. */
  function Iterate(s: State, b: byte): (r: Feeding)
    requires Valid(s)
    ensures Valid(r.state)
    ensures r.used <= 1
    ensures r.status == More ==> r.used == 1 || r.state.readingState > s.readingState
    ensures r.status == Done ==> r.used == 1
    ensures r.status == Abort ==> r.used == 0
  {
    match s.readingState
    case 0 => Feeding(s.(flags := b, readingState := 1), 1, More)
    case 1 =>
      Feeding(s.(lenByte := b, useMask := b >= 0x80, size := b % 0x80,
                 readingState := 2, bufferPos := 0), 1, More)
    case 2 =>
      if ExtendedBytes(s.size) == 0 then
        Feeding(s.(readingState := 3, bufferPos := 0), 0, More)
      else
        var tmp := s.bufferTmp[s.bufferPos := b];
        if s.bufferPos + 1 == ExtendedBytes(s.size) then
          BigEndianBelowTwo64(tmp[..s.bufferPos + 1]);
          Feeding(s.(bufferTmp := tmp, size := BigEndian(tmp[..s.bufferPos + 1]),
                     readingState := 3, bufferPos := 0), 1, More)
        else
          Feeding(s.(bufferTmp := tmp, bufferPos := s.bufferPos + 1), 1, More)
    case 3 =>
      if !s.useMask then
        Feeding(s.(readingState := 4), 0, More)
      else
        var tmp := s.bufferTmp[s.bufferPos := b];
        if s.bufferPos + 1 == 4 then
          Feeding(s.(bufferTmp := tmp, mask := tmp[..4], readingState := 4, bufferPos := 0), 1, More)
        else
          Feeding(s.(bufferTmp := tmp, bufferPos := s.bufferPos + 1), 1, More)
    case 4 => Feeding(s.(payload := Resize(s.payload, s.size), readingState := 5, bufferPos := 0), 0, More)
    case _ =>
      if s.bufferPos >= |s.payload| then
        Feeding(s, 0, Abort)
      else
        var filled := s.(payload := s.payload[s.bufferPos := b], bufferPos := s.bufferPos + 1);
        if filled.bufferPos == s.size then
          Feeding(filled.(readingState := 0), 1, Done)
        else
          Feeding(filled, 1, More)
  }

  function Shift(n: nat, r: Feeding): Feeding {
    r.(used := n + r.used)
  }

  /** The byte loop, run until the input ends, a frame completes or an assert fails. */
  function Feed(s: State, buffer: seq<byte>): (r: Feeding)
    requires Valid(s)
    ensures Valid(r.state)
    ensures r.used <= |buffer|
    ensures r.status == More ==> r.used == |buffer|
    ensures r.status == Done ==> r.used > 0 && r.state.readingState == 0
    ensures r.status == Abort ==> r.used < |buffer|
    decreases |buffer|, 5 - s.readingState
  {
    if buffer == [] then
      Feeding(s, 0, More)
    else
      var t := Iterate(s, buffer[0]);
      if t.status == More then Shift(t.used, Feed(t.state, buffer[t.used..])) else t
  }

  lemma FeedEmpty(s: State)
    requires Valid(s)
    ensures Feed(s, []) == Feeding(s, 0, More)
  {
  }

  /** The loop of `Feed`, seen from a cursor into a longer buffer. */
  lemma FeedTurn(s: State, buffer: seq<byte>, at: nat)
    requires Valid(s) && at < |buffer|
    ensures var t := Iterate(s, buffer[at]);
      && at + t.used <= |buffer|
      && Feed(s, buffer[at..]) == if t.status == More then Shift(t.used, Feed(t.state, buffer[at + t.used..])) else t
  {
    var t := Iterate(s, buffer[at]);
    assert buffer[at..][t.used..] == buffer[at + t.used..];
  }

  /** What happens to a completed frame after the loop. */
  function Finish(s: State): State
    requires Valid(s)
  {
    s.(readingState := 0, bufferPos := 0, payload := if s.useMask then Xor(s.payload, s.mask) else s.payload)
  }

  function Receive(s: State, buffer: seq<byte>): (r: Feeding)
    requires Valid(s)
    ensures Valid(r.state)
    ensures r.used <= |buffer|
    ensures r.status == More ==> r.used == |buffer|
    ensures r.status == Done ==> r.used > 0 && r.state.readingState == 0
  {
    var r := Feed(s, buffer);
    if r.status == Done then r.(state := Finish(r.state)) else r
  }

  /** The mutable record and its decoder. */
  class Frame {
    var flags: byte
    var lenByte: byte
    var size: nat
    const mask: array<byte>
    var readingState: nat
    var payload: seq<byte>
    var bufferPos: nat
    const bufferTmp: array<byte>
    var useMask: bool

    ghost function Value(): State
      reads this, mask, bufferTmp
    {
      State(flags, lenByte, size, mask[..], readingState, payload, bufferPos, bufferTmp[..], useMask)
    }

    ghost predicate Ok()
      reads this, mask, bufferTmp
    {
      mask != bufferTmp && Valid(Value())
    }

    constructor ()
      ensures Ok() && fresh(mask) && fresh(bufferTmp)
      ensures Value() == State(0, 0, 0, [0, 0, 0, 0], 0, [], 0, seq(16, _ => 0), false)
    {
      flags, lenByte, size, readingState, payload, bufferPos, useMask := 0, 0, 0, 0, [], 0, false;
      mask := new byte[4](_ => 0);
      bufferTmp := new byte[16](_ => 0);
      new;
      assert mask[..] == [0, 0, 0, 0];
      assert bufferTmp[..] == seq(16, _ => 0);
    }

    /** State 2: the extended length, one byte at a time, or nothing to read. */
    method ReadLength(b: byte) returns (used: nat)
      requires Ok() && readingState == 2
      modifies this, bufferTmp
      ensures Feeding(Value(), used, More) == Iterate(old(Value()), b)
    {
      used := 0;
      if size == 126 || size == 127 {
        ghost var before := bufferTmp[..];
        bufferTmp[bufferPos] := b;
        assert bufferTmp[..] == before[bufferPos := b];
        bufferPos, used := bufferPos + 1, 1;
        if bufferPos == 8 && size == 127 {
          assert bufferTmp[..8] == bufferTmp[..][..8];
          size := BigEndian(bufferTmp[..8]);
          readingState := readingState + 1;
          bufferPos := 0;
        } else if bufferPos == 2 && size == 126 {
          assert bufferTmp[..2] == bufferTmp[..][..2];
          size := BigEndian(bufferTmp[..2]);
          readingState := readingState + 1;
          bufferPos := 0;
        }
      } else {
        readingState := readingState + 1;
        bufferPos := 0;
      }
    }

    /** State 3: the masking key, one byte at a time, or nothing to read. */
    method ReadMask(b: byte) returns (used: nat)
      requires Ok() && readingState == 3
      modifies this, mask, bufferTmp
      ensures Feeding(Value(), used, More) == Iterate(old(Value()), b)
    {
      used := 0;
      if useMask {
        ghost var before := bufferTmp[..];
        bufferTmp[bufferPos] := b;
        assert bufferTmp[..] == before[bufferPos := b];
        bufferPos, used := bufferPos + 1, 1;
        if bufferPos == 4 {
          forall i | 0 <= i < 4 {
            mask[i] := bufferTmp[i];
          }
          assert mask[..] == bufferTmp[..][..4];
          readingState := readingState + 1;
          bufferPos := 0;
        }
      } else {
        readingState := readingState + 1;
      }
    }

    /** The switch inside the loop, on the byte under the cursor. */
    method Turn(b: byte) returns (used: nat, status: Status)
      requires Ok()
      modifies this, mask, bufferTmp
      ensures Feeding(Value(), used, status) == Iterate(old(Value()), b)
    {
      used, status := 0, More;
      if readingState == 0 {
        flags, used := b, 1;
        readingState := readingState + 1;
      } else if readingState == 1 {
        lenByte, used := b, 1;
        useMask := lenByte >= 0x80;
        size := lenByte % 0x80;
        readingState := readingState + 1;
        bufferPos := 0;
      } else if readingState == 2 {
        used := ReadLength(b);
      } else if readingState == 3 {
        used := ReadMask(b);
      } else if readingState == 4 {
        payload := Resize(payload, size);
        readingState := readingState + 1;
        bufferPos := 0;
      } else if size != |payload| || bufferPos >= |payload| {
        status := Abort;
      } else {
        payload := payload[bufferPos := b];
        bufferPos, used := bufferPos + 1, 1;
        if bufferPos == size {
          status := Done;
          readingState := 0;
        }
      }
    }

    /** Applies the masking key to a completed payload in place. */
    method Unmask()
      modifies this`payload
      requires mask.Length == 4
      ensures payload == Xor(old(payload), mask[..])
    {
      ghost var whole, target := payload, Xor(payload, mask[..]);
      var i := 0;
      while i < |payload|
        invariant i <= |payload| == |whole|
        invariant forall k :: 0 <= k < |whole| ==> payload[k] == if k < i then target[k] else whole[k]
      {
        var octet := BitXor(payload[i], mask[i % 4]);
        assert octet == target[i];
        payload := payload[i := octet];
        i := i + 1;
      }
    }

    /** Feeds one buffer: how many bytes were consumed and whether a frame completed. */
    method ReceiveData(buffer: seq<byte>) returns (inBufferOffset: nat, status: Status)
      requires Ok()
      modifies this, mask, bufferTmp
      ensures Ok()
      ensures Feeding(Value(), inBufferOffset, status) == Receive(old(Value()), buffer)
    {
      hide Iterate, Feed, Xor;
      inBufferOffset, status := 0, More;
      ghost var s0 := Value();
      assert buffer[0..] == buffer;
      while inBufferOffset < |buffer| && status == More
        invariant Ok()
        invariant inBufferOffset <= |buffer|
        invariant status == More ==>
          Feed(s0, buffer) == Shift(inBufferOffset, Feed(Value(), buffer[inBufferOffset..]))
        invariant status != More ==> Feed(s0, buffer) == Feeding(Value(), inBufferOffset, status)
        decreases status == More, |buffer| - inBufferOffset, 5 - readingState
      {
        ghost var before := Value();
        FeedTurn(before, buffer, inBufferOffset);
        var used, st := Turn(buffer[inBufferOffset]);
        assert Feeding(Value(), used, st) == Iterate(before, buffer[inBufferOffset]);
        inBufferOffset, status := inBufferOffset + used, st;
      }
      FeedEmpty(Value());
      assert buffer[|buffer|..] == [];
      if status != Done {
        return;
      }
      readingState := 0;
      bufferPos := 0;
      if useMask {
        Unmask();
      }
    }
  }
}
