/** Frames of the benchmark protocol: two big-endian 32-bit numbers and a payload. */
module Protocol {

  type Byte = x: int | 0 <= x < 0x100
  type U32 = x: int | 0 <= x < 0x1_0000_0000

  const HEADER := 8

  function ToU32(x: int): U32 {
    x % 0x1_0000_0000
  }

  function EncodeU32(v: U32): (r: seq<Byte>)
    ensures |r| == 4
  {
    [v / 0x100_0000 % 0x100, v / 0x1_0000 % 0x100, v / 0x100 % 0x100, v % 0x100]
  }

  function DecodeU32(b: seq<Byte>): U32
    requires |b| >= 4
  {
    b[0] as int * 0x100_0000 + b[1] as int * 0x1_0000 + b[2] as int * 0x100 + b[3] as int
  }

  /** A number is put together from its four digits in base 256. */
  lemma Digits(v: U32)
    ensures v / 0x100_0000 % 0x100 * 0x100_0000 + v / 0x1_0000 % 0x100 * 0x1_0000 + v / 0x100 % 0x100 * 0x100 +
      v % 0x100 == v
  {
    var a := v / 0x100;
    var b := a / 0x100;
    var c := b / 0x100;
    assert v == a * 0x100 + v % 0x100 && a == b * 0x100 + a % 0x100 && b == c * 0x100 + b % 0x100;
    assert v / 0x1_0000 == b && v / 0x100_0000 == c && c % 0x100 == c;
  }

  /** The most significant byte comes first: the first `k` bytes tell the number down to a multiple of 256^(4 - k). */
  lemma BigEndian(v: U32)
    ensures var b := EncodeU32(v);
      && b[0] as int * 0x100_0000 <= v < (b[0] as int + 1) * 0x100_0000
      && (b[0] as int * 0x100 + b[1]) * 0x1_0000 <= v < (b[0] as int * 0x100 + b[1] + 1) * 0x1_0000
      && ((b[0] as int * 0x100 + b[1]) * 0x100 + b[2]) * 0x100 <= v
      && v < ((b[0] as int * 0x100 + b[1]) * 0x100 + b[2] + 1) * 0x100
      && v % 0x100 == b[3]
  {
    Digits(v);
  }

  lemma DecodeEncode(v: U32, rest: seq<Byte>)
    ensures DecodeU32(EncodeU32(v) + rest) == v
  {
    Digits(v);
  }

  lemma EncodeDecode(b: seq<Byte>)
    requires |b| == 4
    ensures EncodeU32(DecodeU32(b)) == b
  {
    var v, hi, mid := DecodeU32(b), b[0] as int * 0x100 + b[1], (b[0] as int * 0x100 + b[1]) * 0x100 + b[2];
    assert v == mid * 0x100 + b[3] && v == hi * 0x1_0000 + (b[2] as int * 0x100 + b[3]);
    assert v / 0x100 == mid && v / 0x1_0000 == hi && v / 0x100_0000 == b[0];
  }

  function Header(size: U32, sequence: U32): (r: seq<Byte>)
    ensures |r| == HEADER
  {
    EncodeU32(size) + EncodeU32(sequence)
  }

  /** `bench_frame_payload_size` and `bench_frame_sequence`. */
  function PayloadSize(b: seq<Byte>): U32
    requires |b| >= HEADER
  {
    DecodeU32(b)
  }

  function Sequence(b: seq<Byte>): U32
    requires |b| >= HEADER
  {
    DecodeU32(b[4..])
  }

  /** Reading back the header of a buffer gives what was written, whatever follows it. */
  lemma HeaderRoundTrip(size: U32, sequence: U32, rest: seq<Byte>)
    ensures var b := Header(size, sequence) + rest;
      && PayloadSize(b) == size && Sequence(b) == sequence
      && b[..4] == EncodeU32(size) && b[4..8] == EncodeU32(sequence)
  {
    var b := Header(size, sequence) + rest;
    assert b == EncodeU32(size) + (EncodeU32(sequence) + rest);
    DecodeEncode(size, EncodeU32(sequence) + rest);
    assert b[4..] == EncodeU32(sequence) + rest;
    DecodeEncode(sequence, rest);
  }

  /** `bench_write_u32` into a buffer at an offset. */
  method WriteU32(buf: array<Byte>, offset: nat, v: U32)
    requires offset + 4 <= buf.Length
    modifies buf
    ensures buf[..] == old(buf[..offset]) + EncodeU32(v) + old(buf[offset + 4..])
  {
    buf[offset] := v / 0x100_0000 % 0x100;
    buf[offset + 1] := v / 0x1_0000 % 0x100;
    buf[offset + 2] := v / 0x100 % 0x100;
    buf[offset + 3] := v % 0x100;
  }

  /** `bench_frame_write_header`. */
  method WriteHeader(buf: array<Byte>, size: U32, sequence: U32)
    requires buf.Length >= HEADER
    modifies buf
    ensures buf[..] == Header(size, sequence) + old(buf[HEADER..])
  {
    WriteU32(buf, 0, size);
    assert buf[..4] == EncodeU32(size) && buf[8..] == old(buf[8..]);
    WriteU32(buf, 4, sequence);
  }
}
