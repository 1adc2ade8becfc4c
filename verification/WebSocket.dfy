/** WebSocket framing of src/server.ts, against sections 5.2 and 5.3 of RFC 6455. */
module WebSocket {
  import opened Wrappers

  type Byte = b: int | 0 <= b < 256

  // ---- Bits and numbers ----

  function Power(base: nat, n: nat): nat {
    if n == 0 then 1 else base * Power(base, n - 1)
  }

  /** Exclusive or of the `n` lowest bits. */
  function XorBits(a: nat, b: nat, n: nat): (x: nat)
    ensures x < Power(2, n)
  {
    if n == 0 then 0
    else
      var bit := if a % 2 != b % 2 then 1 else 0;
      2 * XorBits(a / 2, b / 2, n - 1) + bit
  }

  function Xor(a: Byte, b: Byte): Byte {
    assert Power(2, 8) == 256 by { assert Power(2, 4) == 16; }
    XorBits(a, b, 8)
  }

  /** The binary digit of `x` at place `k`. */
  function Bit(x: nat, k: nat): (b: nat)
    ensures b < 2
  {
    if k == 0 then x % 2 else Bit(x / 2, k - 1)
  }

  lemma {:induction false} BitOfXorBits(a: nat, b: nat, n: nat, k: nat)
    requires k < n
    ensures Bit(XorBits(a, b, n), k) == 1 <==> Bit(a, k) != Bit(b, k)
  {
    if k > 0 {
      BitOfXorBits(a / 2, b / 2, n - 1, k - 1);
    }
  }

  lemma {:induction false} BitsDecide(x: nat, y: nat, n: nat)
    requires x < Power(2, n) && y < Power(2, n) && forall k :: 0 <= k < n ==> Bit(x, k) == Bit(y, k)
    ensures x == y
  {
    if n > 0 {
      forall k | 0 <= k < n - 1
        ensures Bit(x / 2, k) == Bit(y / 2, k)
      {
        assert Bit(x, k + 1) == Bit(y, k + 1);
      }
      BitsDecide(x / 2, y / 2, n - 1);
      assert Bit(x, 0) == Bit(y, 0);
    }
  }

  lemma XorFits(a: Byte, b: Byte)
    ensures Xor(a, b) == XorBits(a, b, 8) && Power(2, 8) == 256
  {
    assert Power(2, 4) == 16;
  }

  /** `x` has a 1 just where the digits of `a` and `b` differ. */
  ghost predicate MarksDifferences(x: nat, a: nat, b: nat) {
    forall k :: 0 <= k < 8 ==> (Bit(x, k) == 1 <==> Bit(a, k) != Bit(b, k))
  }

  lemma XorMarks(a: Byte, b: Byte)
    ensures MarksDifferences(Xor(a, b), a, b)
  {
    forall k | 0 <= k < 8
      ensures Bit(XorBits(a, b, 8), k) == 1 <==> Bit(a, k) != Bit(b, k)
    {
      BitOfXorBits(a, b, 8, k);
    }
    hide Bit, XorBits;
  }

  lemma MarksDecide(x: Byte, y: Byte, a: Byte, b: Byte)
    requires MarksDifferences(x, a, b) && MarksDifferences(y, a, b)
    ensures x == y
  {
    hide Bit;
    XorFits(a, b);
    forall k | 0 <= k < 8
      ensures Bit(x, k) == Bit(y, k)
    {
      assert Bit(x, k) == 1 <==> Bit(y, k) == 1;
    }
    BitsDecide(x, y, 8);
  }

  /** The exclusive or of two bytes is the byte that marks where their digits differ. */
  lemma XorIff(a: Byte, b: Byte, x: Byte)
    ensures x == Xor(a, b) <==> MarksDifferences(x, a, b)
  {
    hide MarksDifferences;
    XorMarks(a, b);
    if MarksDifferences(x, a, b) { MarksDecide(x, Xor(a, b), a, b); }
  }

  /** Masking twice with the same byte gives the byte back. */
  lemma XorTwice(a: Byte, b: Byte)
    ensures Xor(Xor(a, b), b) == a
  {
    hide Bit, Xor;
    var x := Xor(a, b);
    XorMarks(a, b);
    forall k | 0 <= k < 8
      ensures Bit(a, k) == 1 <==> Bit(x, k) != Bit(b, k)
    {
      assert Bit(x, k) == 1 <==> Bit(a, k) != Bit(b, k);
    }
    XorIff(x, b, a);
  }

  /** The number that `bytes` spell, most significant byte first. */
  function BigEndian(bytes: seq<Byte>): nat {
    if bytes == [] then 0 else BigEndian(bytes[..|bytes| - 1]) * 256 + bytes[|bytes| - 1]
  }

  function ToBigEndian(n: nat, width: nat): (bytes: seq<Byte>)
    ensures |bytes| == width
  {
    if width == 0 then [] else ToBigEndian(n / 256, width - 1) + [n % 256]
  }

  lemma {:induction false} BigEndianInverse(n: nat, width: nat)
    requires n < Power(256, width)
    ensures BigEndian(ToBigEndian(n, width)) == n
  {
    if width > 0 {
      BigEndianInverse(n / 256, width - 1);
      assert ToBigEndian(n, width)[..width - 1] == ToBigEndian(n / 256, width - 1);
    }
  }

  // ---- Frames as the RFC describes them ----

  const FIN_TEXT: Byte := 0x81

  /** No `Buffer` is longer than a JavaScript number can count. */
  const MAX_LENGTH := 0x20_0000_0000_0000

  type Key = k: seq<Byte> | |k| == 4 witness [0, 0, 0, 0]

  function Masked(payload: seq<Byte>, key: Key): (r: seq<Byte>)
    ensures |r| == |payload| && forall i :: 0 <= i < |r| ==> r[i] == Xor(payload[i], key[i % 4])
  {
    seq(|payload|, i requires 0 <= i < |payload| => Xor(payload[i], key[i % 4]))
  }

  /** Section 5.2: the mask bit and the 7-bit length, or one of the two extended lengths. */
  function LengthField(length: nat, masked: bool): (field: seq<Byte>)
    requires length < MAX_LENGTH
  {
    var bit := if masked then 0x80 else 0;
    if length <= 125 then [bit + length]
    else if length <= 0xFFFF then [bit + 126] + ToBigEndian(length, 2)
    else [bit + 127] + ToBigEndian(length, 8)
  }

  /** An unfragmented text frame, masked with a key when one is given. */
  function Frame(payload: seq<Byte>, key: Option<Key>): seq<Byte>
    requires |payload| < MAX_LENGTH
  {
    match key
    case None => [FIN_TEXT] + LengthField(|payload|, false) + payload
    case Some(k) => [FIN_TEXT] + LengthField(|payload|, true) + k + Masked(payload, k)
  }

  // ---- The encoder ----

  /** `wsEncode`, for the UTF-8 bytes of its argument. */
  method WsEncode(payload: seq<Byte>) returns (frame: seq<Byte>)
    requires |payload| < MAX_LENGTH
    ensures frame == Frame(payload, None)
  {
    var len := |payload|;
    var header: seq<Byte>;
    if len < 126 {
      header := [0x81, len];
    } else if len < 65536 {
      header := [0x81, 126] + ToBigEndian(len, 2);
    } else {
      header := [0x81, 127] + ToBigEndian(len, 8);
    }
    frame := header + payload;
  }

  // ---- The decoder ----

  datatype Decoded = Decoded(payload: seq<Byte>, consumed: nat)

  /** Where the mask key or the payload begins, and the payload length; nothing while the length field
      is incomplete. */
  function Header(buffer: seq<Byte>): (h: Option<(nat, nat)>)
    ensures h.Some? ==> 2 <= h.value.0 <= |buffer|
  {
    if |buffer| < 2 then None
    else
      var short := buffer[1] % 0x80;
      if short == 126 then
        if |buffer| < 4 then None else Some((4, BigEndian(buffer[2..4])))
      else if short == 127 then
        if |buffer| < 10 then None else Some((10, BigEndian(buffer[2..10])))
      else Some((2, short))
  }

  predicate IsMasked(buffer: seq<Byte>)
    requires |buffer| >= 2
  {
    buffer[1] >= 0x80
  }

  /** Where the payload begins and ends; nothing while the frame is incomplete. */
  function Extent(buffer: seq<Byte>): (e: Option<(nat, nat)>)
    ensures e.Some? ==> 2 <= e.value.0 <= e.value.1 <= |buffer|
    ensures e.Some? && IsMasked(buffer) ==> 6 <= e.value.0
  {
    var h := Header(buffer);
    if h.None? then None
    else
      var start := h.value.0 + if IsMasked(buffer) then 4 else 0;
      if |buffer| < start + h.value.1 then None else Some((start, start + h.value.1))
  }

  function Payload(buffer: seq<Byte>, start: nat, end: nat): seq<Byte>
    requires 2 <= start <= end <= |buffer| && (IsMasked(buffer) ==> 6 <= start)
  {
    if IsMasked(buffer) then Masked(buffer[start..end], buffer[start - 4..start]) else buffer[start..end]
  }

  function Decode(buffer: seq<Byte>): (d: Option<Decoded>)
    ensures d.Some? ==> 2 <= d.value.consumed <= |buffer|
  {
    var e := Extent(buffer);
    if e.None? then None else Some(Decoded(Payload(buffer, e.value.0, e.value.1), e.value.1))
  }

  /** The buffer after a call: only the payload of a masked frame is overwritten. */
  function AfterDecode(buffer: seq<Byte>): (r: seq<Byte>)
    ensures |r| == |buffer|
  {
    var e := Extent(buffer);
    if e.None? then buffer
    else buffer[..e.value.0] + Payload(buffer, e.value.0, e.value.1) + buffer[e.value.1..]
  }

  /** `after` is `m` with the bytes from `start` to `end` masked once more with the four before them. */
  ghost predicate UnmaskedAt(m: seq<Byte>, after: seq<Byte>, start: nat, end: nat)
    requires 4 <= start <= end <= |m|
  {
    && |after| == |m|
    && (forall k :: start <= k < end ==> after[k] == Xor(m[k], m[start - 4 + (k - start) % 4]))
    && (forall k :: 0 <= k < |m| && !(start <= k < end) ==> after[k] == m[k])
  }

  /** The loop of `wsDecode`: unmask the payload where it lies, with the four bytes before it. */
  method Unmask(memory: array<Byte>, start: nat, end: nat)
    requires 4 <= start <= end <= memory.Length
    modifies memory
    ensures UnmaskedAt(old(memory[..]), memory[..], start, end)
  {
    hide Xor;
    for i := 0 to end - start
      invariant forall k :: 0 <= k < memory.Length && !(start <= k < start + i) ==> memory[k] == old(memory[k])
      invariant forall k :: start <= k < start + i ==>
                              memory[k] == Xor(old(memory[k]), old(memory[start - 4 + (k - start) % 4]))
    {
      assert (start + i - start) % 4 == i % 4 && memory[start - 4 + i % 4] == old(memory[start - 4 + i % 4]);
      memory[start + i] := Xor(memory[start + i], memory[start - 4 + i % 4]);
    }
  }

  lemma ViewSlice(m: seq<Byte>, from: nat, a: nat, b: nat)
    requires a <= b <= |m| - from
    ensures m[from..][a..b] == m[from + a..from + b]
    ensures m[..from] + m[from..][..a] == m[..from + a]
    ensures m[from..][b..] == m[from + b..]
  {
  }

  lemma Spliced(m: seq<Byte>, from: nat, start: nat, end: nat, payload: seq<Byte>)
    requires from + end <= |m| && start <= end && |payload| == end - start
    ensures var r := m[..from + start] + payload + m[from + end..];
            && r == m[..from] + (m[from..][..start] + payload + m[from..][end..])
            && r[from + start..from + end] == payload
  {
    ViewSlice(m, from, start, end);
    var r := m[..from + start] + payload + m[from + end..];
    assert r[from + start..from + end] == payload;
  }

  /** What the memory holds after a frame has been decoded, and where its payload lies. */
  lemma AfterFrame(m: seq<Byte>, from: nat, start: nat, end: nat, after: seq<Byte>)
    requires from <= |m| && Extent(m[from..]) == Some((start, end))
    requires if IsMasked(m[from..]) then UnmaskedAt(m, after, from + start, from + end) else after == m
    ensures |after| == |m| && after == m[..from] + AfterDecode(m[from..])
    ensures Decode(m[from..]) == Some(Decoded(after[from + start..from + end], end))
  {
    var buffer := m[from..];
    var payload := Payload(buffer, start, end);
    hide Xor;
    forall k | 0 <= k < end - start
      ensures after[from + start + k] == payload[k]
    {
      if IsMasked(buffer) {
        assert payload[k] == Xor(buffer[start..end][k], buffer[start - 4..start][k % 4]);
      }
    }
    hide Extent, Payload;
    assert after[from + start..from + end] == payload;
    assert after == m[..from + start] + payload + m[from + end..];
    Spliced(m, from, start, end, payload);
  }

  /** The length field of `wsDecode`: where what follows it begins, and the payload length. */
  method ReadHeader(memory: array<Byte>, from: nat) returns (header: Option<(nat, nat)>)
    requires from <= memory.Length
    ensures header == Header(memory[..][from..])
  {
    var length := memory.Length - from;
    if length < 2 { return None; }
    var payloadLen: nat := memory[from + 1] % 0x80;
    if payloadLen == 126 {
      if length < 4 { return None; }
      ViewSlice(memory[..], from, 2, 4);
      return Some((4, BigEndian(memory[from + 2..from + 4])));
    } else if payloadLen == 127 {
      if length < 10 { return None; }
      ViewSlice(memory[..], from, 2, 10);
      return Some((10, BigEndian(memory[from + 2..from + 10])));
    }
    return Some((2, payloadLen));
  }

  /** Where the payload lies, once the length field has been read. */
  lemma ExtentIs(buffer: seq<Byte>, offset: nat, length: nat)
    requires Header(buffer) == Some((offset, length))
    ensures var start := offset + if IsMasked(buffer) then 4 else 0;
            Extent(buffer) == if |buffer| < start + length then None else Some((start, start + length))
  {
  }

  /** Without a complete frame there is nothing to decode and nothing is overwritten. */
  lemma NoFrame(m: seq<Byte>, from: nat)
    requires from <= |m| && Extent(m[from..]) == None
    ensures Decode(m[from..]) == None && m == m[..from] + AfterDecode(m[from..])
  {
  }

  lemma NoHeader(buffer: seq<Byte>)
    requires Header(buffer) == None
    ensures Extent(buffer) == None
  {
  }

  /** `wsDecode` on the view of `memory` that begins at `from`. */
  method WsDecode(memory: array<Byte>, from: nat) returns (decoded: Option<Decoded>)
    requires from <= memory.Length
    modifies memory
    ensures decoded == Decode(old(memory[..])[from..])
    ensures memory[..] == old(memory[..])[..from] + AfterDecode(old(memory[..])[from..])
  {
    var header := ReadHeader(memory, from);
    ghost var before := memory[..];
    ghost var buffer := before[from..];
    assert |buffer| >= 2 ==> IsMasked(buffer) == (memory[from + 1] >= 0x80);
    hide *;
    if header == None {
      NoHeader(buffer);
      NoFrame(before, from);
      return None;
    }
    var payloadLen := header.value.1;
    var offset := header.value.0;
    ExtentIs(buffer, offset, payloadLen);
    var masked := memory[from + 1] >= 0x80;
    if masked {
      offset := offset + 4;
    }
    var end := offset + payloadLen;
    if memory.Length - from < end {
      NoFrame(before, from);
      return None;
    }
    if masked {
      Unmask(memory, from + offset, from + end);
    }
    ghost var after := memory[..];
    AfterFrame(before, from, offset, end, after);
    decoded := Some(Decoded(memory[..][from + offset..from + end], end));
  }

  // ---- Round trips ----

  /** What `Frame` puts before the payload. */
  function FrameHead(length: nat, key: Option<Key>): seq<Byte>
    requires length < MAX_LENGTH
  {
    [FIN_TEXT] + LengthField(length, key.Some?) + (if key.Some? then key.value else [])
  }

  function OnWire(payload: seq<Byte>, key: Option<Key>): (r: seq<Byte>)
    ensures |r| == |payload|
  {
    if key.Some? then Masked(payload, key.value) else payload
  }

  lemma FrameParts(payload: seq<Byte>, key: Option<Key>)
    requires |payload| < MAX_LENGTH
    ensures Frame(payload, key) == FrameHead(|payload|, key) + OnWire(payload, key)
  {
  }

  lemma MaskedTwice(payload: seq<Byte>, key: Key)
    ensures Masked(Masked(payload, key), key) == payload
  {
    forall i | 0 <= i < |payload|
      ensures Masked(Masked(payload, key), key)[i] == payload[i]
    {
      XorTwice(payload[i], key[i % 4]);
    }
  }

  lemma PowersOf256()
    ensures Power(256, 2) == 0x1_0000 && Power(256, 8) == 0x1_0000_0000_0000_0000
  {
    assert Power(256, 3) == 0x100_0000 && Power(256, 5) == 0x100_0000_0000;
  }

  lemma LengthReadsBack(length: nat)
    requires length < MAX_LENGTH
    ensures length <= 0xFFFF ==> BigEndian(ToBigEndian(length, 2)) == length
    ensures BigEndian(ToBigEndian(length, 8)) == length
  {
    PowersOf256();
    hide Power, BigEndian, ToBigEndian;
    if length <= 0xFFFF { BigEndianInverse(length, 2); }
    BigEndianInverse(length, 8);
  }

  /** The head of a frame, whatever follows it, is read back exactly. */
  lemma HeadRoundTrip(length: nat, key: Option<Key>, rest: seq<Byte>)
    requires length < MAX_LENGTH
    ensures var head := FrameHead(length, key);
            && |head| >= 2 && IsMasked(head + rest) == key.Some?
            && Header(head + rest) == Some((|head| - (if key.Some? then 4 else 0), length))
  {
    hide BigEndian, ToBigEndian;
    var buffer := FrameHead(length, key) + rest;
    LengthReadsBack(length);
    if 125 < length <= 0xFFFF {
      assert buffer[2..4] == ToBigEndian(length, 2);
    } else if 0xFFFF < length {
      assert buffer[2..10] == ToBigEndian(length, 8);
    }
  }

  /** Decoding a frame followed by any bytes returns its payload and consumes exactly the frame, for
      every payload length and every key. */
  lemma RoundTrip(payload: seq<Byte>, key: Option<Key>, rest: seq<Byte>)
    requires |payload| < MAX_LENGTH
    ensures Decode(Frame(payload, key) + rest) == Some(Decoded(payload, |Frame(payload, key)|))
  {
    var head, wire := FrameHead(|payload|, key), OnWire(payload, key);
    var frame := Frame(payload, key);
    FrameParts(payload, key);
    HeadRoundTrip(|payload|, key, wire + rest);
    var buffer := frame + rest;
    assert buffer == head + (wire + rest);
    var start := |head|;
    assert Extent(buffer) == Some((start, start + |payload|));
    assert buffer[start..start + |payload|] == wire;
    if key.Some? {
      assert buffer[start - 4..start] == key.value;
      MaskedTwice(payload, key.value);
    }
  }

  // ---- What a frame looks like, byte by byte ----

  function Pair(high: nat, low: nat): nat {
    high * 256 + low
  }

  /** The number in bytes 2 to 9. */
  function EightBytes(f: seq<Byte>): nat
    requires |f| >= 10
  {
    Pair(Pair(Pair(Pair(Pair(Pair(Pair(f[2], f[3]), f[4]), f[5]), f[6]), f[7]), f[8]), f[9])
  }

  /** The first `head` bytes give the mask bit and the length `n`, in one of the three forms of
      section 5.2 of RFC 6455. */
  ghost predicate HeadSays(f: seq<Byte>, head: int, n: nat, masked: bool) {
    && 2 <= head <= |f|
    && var bit := if masked then 0x80 else 0;
       || (head == 2 && n <= 125 && f[1] == bit + n)
       || (head == 4 && f[1] == bit + 126 && Pair(f[2], f[3]) == n)
       || (head == 10 && f[1] == bit + 127 && EightBytes(f) == n)
  }

  /** From `start` on there is nothing but the payload, masked as section 5.3 says with the key before it. */
  ghost predicate Carries(f: seq<Byte>, start: int, payload: seq<Byte>, key: Option<Key>) {
    && 0 <= start && start + |payload| == |f|
    && (key.Some? ==> 4 <= start && f[start - 4..start] == key.value)
    && forall i :: 0 <= i < |payload| ==>
         f[start + i] == if key.Some? then Xor(payload[i], key.value[i % 4]) else payload[i]
  }

  function KeyLength(key: Option<Key>): nat {
    if key.Some? then 4 else 0
  }

  /** `f` is a frame that carries `payload`, masked with `key` if there is one. */
  ghost predicate LaysOut(f: seq<Byte>, payload: seq<Byte>, key: Option<Key>) {
    var start := |f| - |payload|;
    HeadSays(f, start - KeyLength(key), |payload|, key.Some?) && Carries(f, start, payload, key)
  }

  lemma BigEndianPush(bytes: seq<Byte>, b: Byte)
    ensures BigEndian(bytes + [b]) == Pair(BigEndian(bytes), b)
  {
    assert (bytes + [b])[..|bytes|] == bytes;
  }

  lemma BigEndianOfTwo(f: seq<Byte>)
    requires |f| >= 4
    ensures BigEndian(f[2..4]) == Pair(f[2], f[3])
  {
    hide BigEndian, Pair;
    BigEndianOfOne(f[2]);
    BigEndianPush([f[2]], f[3]);
    assert f[2..4] == [f[2]] + [f[3]];
  }

  lemma BigEndianOfOne(b: Byte)
    ensures BigEndian([b]) == b
  {
  }

  lemma BigEndianOfMore(f: seq<Byte>, k: nat)
    requires 2 <= k < |f|
    ensures BigEndian(f[2..k + 1]) == Pair(BigEndian(f[2..k]), f[k])
  {
    BigEndianPush(f[2..k], f[k]);
    assert f[2..k] + [f[k]] == f[2..k + 1];
  }

  lemma BigEndianOfEight(f: seq<Byte>)
    requires |f| >= 10
    ensures BigEndian(f[2..10]) == EightBytes(f)
  {
    hide BigEndian, Pair;
    BigEndianOfTwo(f);
    BigEndianOfMore(f, 4);
    BigEndianOfMore(f, 5);
    BigEndianOfMore(f, 6);
    BigEndianOfMore(f, 7);
    BigEndianOfMore(f, 8);
    BigEndianOfMore(f, 9);
  }

  /** How the first bytes are read. */
  lemma HeaderIff(buffer: seq<Byte>, head: int, n: nat)
    requires |buffer| >= 2
    ensures Header(buffer) == Some((head, n)) <==> HeadSays(buffer, head, n, IsMasked(buffer))
  {
    if |buffer| >= 4 { BigEndianOfTwo(buffer); }
    if |buffer| >= 10 { BigEndianOfEight(buffer); }
    hide BigEndian, EightBytes, Pair;
  }

  lemma HeadOfPrefix(buffer: seq<Byte>, c: nat, head: int, n: nat, masked: bool)
    requires head <= c <= |buffer|
    ensures HeadSays(buffer[..c], head, n, masked) <==> HeadSays(buffer, head, n, masked)
    ensures HeadSays(buffer, head, n, masked) ==> masked == IsMasked(buffer)
  {
    hide Pair;
  }

  lemma PayloadIff(buffer: seq<Byte>, start: nat, c: nat, payload: seq<Byte>, key: Option<Key>)
    requires 2 <= start <= c <= |buffer| && IsMasked(buffer) == key.Some?
    requires key.Some? ==> 6 <= start && buffer[start - 4..start] == key.value
    ensures Carries(buffer[..c], start, payload, key) <==> Payload(buffer, start, c) == payload
  {
    hide Xor;
    var f, wire := buffer[..c], buffer[start..c];
    assert key.Some? ==> f[start - 4..start] == buffer[start - 4..start];
    assert forall i :: 0 <= i < |wire| ==> wire[i] == f[start + i];
    if Carries(f, start, payload, key) {
      forall i | 0 <= i < |payload| ensures Payload(buffer, start, c)[i] == payload[i] {
        if key.Some? { XorTwice(payload[i], key.value[i % 4]); }
      }
    }
    if Payload(buffer, start, c) == payload {
      forall i | 0 <= i < |payload|
        ensures f[start + i] == if key.Some? then Xor(payload[i], key.value[i % 4]) else payload[i]
      {
        if key.Some? { XorTwice(wire[i], key.value[i % 4]); }
      }
    }
  }

  /** A frame at the front of a buffer decodes to its payload. */
  lemma FrameDecodes(buffer: seq<Byte>, payload: seq<Byte>, c: nat, key: Option<Key>)
    requires c <= |buffer| && LaysOut(buffer[..c], payload, key)
    ensures Decode(buffer) == Some(Decoded(payload, c))
  {
    hide Header, HeadSays, Payload;
    var start := c - |payload|;
    var head := start - KeyLength(key);
    HeadOfPrefix(buffer, c, head, |payload|, key.Some?);
    assert 2 <= head by { HeadIsLong(buffer[..c], head, |payload|, key.Some?); }
    HeaderIff(buffer, head, |payload|);
    ExtentIs(buffer, head, |payload|);
    assert key.Some? ==> buffer[start - 4..start] == buffer[..c][start - 4..start];
    PayloadIff(buffer, start, c, payload, key);
    hide Extent, Carries;
  }

  lemma HeadIsLong(f: seq<Byte>, head: int, n: nat, masked: bool)
    requires HeadSays(f, head, n, masked)
    ensures 2 <= head <= |f|
  {
  }

  /** What decodes is a frame. */
  lemma DecodedIsFrame(buffer: seq<Byte>) returns (key: Option<Key>)
    requires Decode(buffer).Some?
    ensures var d := Decode(buffer).value; LaysOut(buffer[..d.consumed], d.payload, key)
  {
    hide Header, HeadSays, Payload, Carries;
    var (start, end) := Extent(buffer).value;
    var (head, n) := Header(buffer).value;
    key := if IsMasked(buffer) then Some(buffer[start - 4..start]) else None;
    HeaderIff(buffer, head, n);
    HeadOfPrefix(buffer, end, head, n, key.Some?);
    PayloadIff(buffer, start, end, Payload(buffer, start, end), key);
    PayloadLength(buffer, start, end);
  }

  lemma PayloadLength(buffer: seq<Byte>, start: nat, end: nat)
    requires 2 <= start <= end <= |buffer| && (IsMasked(buffer) ==> 6 <= start)
    ensures |Payload(buffer, start, end)| == end - start
  {
    hide Masked;
  }

  /** Decoding is reading the frame at the front of the buffer, whatever its first byte, its length form
      and its key. */
  lemma DecodeIff(buffer: seq<Byte>, payload: seq<Byte>, c: nat)
    ensures Decode(buffer) == Some(Decoded(payload, c)) <==>
            c <= |buffer| && exists key :: LaysOut(buffer[..c], payload, key)
  {
    hide Decode, LaysOut;
    if Decode(buffer) == Some(Decoded(payload, c)) {
      var key := DecodedIsFrame(buffer);
    }
    if c <= |buffer| && exists key :: LaysOut(buffer[..c], payload, key) {
      var key :| LaysOut(buffer[..c], payload, key);
      FrameDecodes(buffer, payload, c, key);
    }
  }

  lemma FrameHeadSays(n: nat, key: Option<Key>, rest: seq<Byte>)
    requires n < MAX_LENGTH
    ensures var head := FrameHead(n, key);
            && HeadSays(head + rest, |head| - KeyLength(key), n, key.Some?)
            && head[0] == 0x81 && (key.Some? ==> head[|head| - 4..] == key.value)
            && |head| == KeyLength(key) + if n <= 125 then 2 else if n <= 65535 then 4 else 10
  {
    HeadRoundTrip(n, key, rest);
    HeaderIff(FrameHead(n, key) + rest, |FrameHead(n, key)| - KeyLength(key), n);
    hide Header, HeadSays, ToBigEndian;
  }

  /** What is encoded is a final text frame with the shortest length form. */
  lemma FrameLaysOut(payload: seq<Byte>, key: Option<Key>)
    requires |payload| < MAX_LENGTH
    ensures var f, n := Frame(payload, key), |payload|;
            && LaysOut(f, payload, key) && f[0] == 0x81
            && |f| == n + KeyLength(key) + if n <= 125 then 2 else if n <= 65535 then 4 else 10
  {
    hide Frame, FrameHead, HeadSays, OnWire, Xor;
    var head, wire := FrameHead(|payload|, key), OnWire(payload, key);
    FrameParts(payload, key);
    FrameHeadSays(|payload|, key, wire);
    OnWireAt(payload, key);
    var f := head + wire;
    assert key.Some? ==> f[|head| - 4..|head|] == head[|head| - 4..];
    assert forall i :: 0 <= i < |payload| ==> f[|head| + i] == wire[i];
  }

  lemma OnWireAt(payload: seq<Byte>, key: Option<Key>)
    ensures forall i :: 0 <= i < |payload| ==>
              OnWire(payload, key)[i] == if key.Some? then Xor(payload[i], key.value[i % 4]) else payload[i]
  {
  }

  lemma HeaderOfPrefix(buffer: seq<Byte>, k: nat)
    requires k <= |buffer|
    ensures Header(buffer[..k]).Some? ==>
              Header(buffer[..k]) == Header(buffer) && IsMasked(buffer[..k]) == IsMasked(buffer)
  {
    if k >= 2 {
      assert buffer[..k][1] == buffer[1];
    }
    if k >= 4 {
      assert buffer[..k][2..4] == buffer[2..4];
    }
    if k >= 10 {
      assert buffer[..k][2..10] == buffer[2..10];
    }
  }

  /** No proper prefix of a frame decodes, and trying leaves the bytes as they are. */
  lemma PrefixWaits(payload: seq<Byte>, key: Option<Key>, k: nat)
    requires |payload| < MAX_LENGTH && k < |Frame(payload, key)|
    ensures Decode(Frame(payload, key)[..k]) == None
    ensures AfterDecode(Frame(payload, key)[..k]) == Frame(payload, key)[..k]
  {
    FrameParts(payload, key);
    HeadRoundTrip(|payload|, key, OnWire(payload, key));
    HeaderOfPrefix(Frame(payload, key), k);
    hide Header, Frame, FrameHead, OnWire;
  }

  /** A decoded frame has its payload in place of what carried it, and nothing else has changed; without a
      frame nothing changes. */
  lemma AfterDecodeIs(buffer: seq<Byte>)
    ensures Decode(buffer) == None ==> AfterDecode(buffer) == buffer
    ensures Decode(buffer).Some? ==>
              var payload, end := Decode(buffer).value.payload, Decode(buffer).value.consumed;
              var start := end - |payload|;
              && 0 <= start <= end <= |buffer|
              && AfterDecode(buffer) == buffer[..start] + payload + buffer[end..]
  {
    hide Masked, Header;
  }

  /** Decoding a frame leaves the bytes behind it as they are. */
  lemma RestIsUntouched(buffer: seq<Byte>)
    requires Decode(buffer).Some?
    ensures var n := Decode(buffer).value.consumed; AfterDecode(buffer)[n..] == buffer[n..]
  {
    AfterDecodeIs(buffer);
    hide Decode, AfterDecode;
  }

  /** `wsDecode` called over and over on what the last call left. */
  function DecodeAll(buffer: seq<Byte>): seq<seq<Byte>>
    decreases |buffer|
  {
    var d := Decode(buffer);
    if d.None? then [] else [d.value.payload] + DecodeAll(AfterDecode(buffer)[d.value.consumed..])
  }

  datatype Sent = Sent(payload: seq<Byte>, key: Option<Key>)

  ghost predicate Sendable(messages: seq<Sent>) {
    forall i :: 0 <= i < |messages| ==> |messages[i].payload| < MAX_LENGTH
  }

  function Stream(messages: seq<Sent>): seq<Byte>
    requires Sendable(messages)
  {
    if messages == [] then [] else Frame(messages[0].payload, messages[0].key) + Stream(messages[1..])
  }

  function Payloads(messages: seq<Sent>): seq<seq<Byte>> {
    if messages == [] then [] else [messages[0].payload] + Payloads(messages[1..])
  }

  lemma DecodeAllStep(m: Sent, rest: seq<Byte>)
    requires |m.payload| < MAX_LENGTH
    ensures DecodeAll(Frame(m.payload, m.key) + rest) == [m.payload] + DecodeAll(rest)
  {
    RoundTrip(m.payload, m.key, rest);
    var frame := Frame(m.payload, m.key);
    RestIsUntouched(frame + rest);
    hide Frame, Decode, AfterDecode;
    assert (frame + rest)[|frame|..] == rest;
  }

  lemma {:induction false} DecodeAllStream(messages: seq<Sent>, tail: seq<Byte>)
    requires Sendable(messages) && Decode(tail) == None
    ensures DecodeAll(Stream(messages) + tail) == Payloads(messages)
  {
    hide Frame, Decode, AfterDecode;
    if messages == [] {
      assert Stream(messages) + tail == tail;
    } else {
      DecodeAllStream(messages[1..], tail);
      DecodeAllStep(messages[0], Stream(messages[1..]) + tail);
      hide DecodeAll;
      assert Stream(messages) + tail
          == Frame(messages[0].payload, messages[0].key) + (Stream(messages[1..]) + tail);
    }
  }

  /** Frames sent one after another, and cut off anywhere in the next one, decode to all the payloads
      in order. */
  lemma StreamRoundTrip(messages: seq<Sent>, next: Sent, k: nat)
    requires Sendable(messages) && |next.payload| < MAX_LENGTH && k < |Frame(next.payload, next.key)|
    ensures DecodeAll(Stream(messages) + Frame(next.payload, next.key)[..k]) == Payloads(messages)
  {
    PrefixWaits(next.payload, next.key, k);
    DecodeAllStream(messages, Frame(next.payload, next.key)[..k]);
  }
}
