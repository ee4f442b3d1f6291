/**
 * Length-prefixed message framing used by the gRPC-Web client
 * (internal/clients/grpc_web_client.go): every message travels as
 * `[flag: 1 byte][length: 4 bytes, big-endian][message]`, the
 * Length-Prefixed-Message of the "Requests" section of the gRPC over
 * HTTP/2 protocol, as reused by the gRPC-Web protocol.
 */
module Framing {
  import opened Wrappers
  import opened Bytes

  /** Size of the flag byte plus the 4-byte length. */
  const HeaderSize: nat := 5
  /** 2^32: the range of Go's `uint32`. */
  const Uint32Range: nat := 0x1_0000_0000
  /** The flag of a data frame (1 would mark trailers). */
  const DataFlag: byte := 0

  /** `binary.BigEndian` writing a `uint32`: most significant byte first. */
  function Uint32ToBytes(n: nat): (bytes: seq<byte>)
    requires n < Uint32Range
    ensures |bytes| == 4
    ensures bytes[0] as nat * 0x100_0000 + bytes[1] as nat * 0x1_0000 + bytes[2] as nat * 0x100 + bytes[3] as nat == n
  {
    var q1, r1 := n / 0x100, n % 0x100;
    var q2, r2 := q1 / 0x100, q1 % 0x100;
    var q3, r3 := q2 / 0x100, q2 % 0x100;
    assert n / 0x1_0000 == q2 && n / 0x100_0000 == q3;
    assert n == q3 * 0x100_0000 + r3 * 0x1_0000 + r2 * 0x100 + r1;
    [(n / 0x100_0000) as byte,
     (n / 0x1_0000 % 0x100) as byte,
     (n / 0x100 % 0x100) as byte,
     (n % 0x100) as byte]
  }

  /** `binary.BigEndian.Uint32`: the value of four bytes, most significant first. */
  function Uint32FromBytes(b: seq<byte>): (n: nat)
    requires |b| == 4
    ensures n < Uint32Range
  {
    b[0] as nat * 0x100_0000 + b[1] as nat * 0x1_0000 + b[2] as nat * 0x100 + b[3] as nat
  }

  /** Reading back what was written gives the number. */
  lemma Uint32RoundTrip(n: nat)
    requires n < Uint32Range
    ensures |Uint32ToBytes(n)| == 4 && Uint32FromBytes(Uint32ToBytes(n)) == n
  {
  }

  /** Writing back what was read gives the bytes. */
  lemma Uint32BytesRoundTrip(b: seq<byte>)
    requires |b| == 4
    ensures Uint32ToBytes(Uint32FromBytes(b)) == b
  {
    var n := Uint32FromBytes(b);
    var low := b[1] as nat * 0x1_0000 + b[2] as nat * 0x100 + b[3] as nat;
    assert n / 0x100_0000 == b[0] as nat;
    assert n / 0x1_0000 == b[0] as nat * 0x100 + b[1] as nat;
    assert n / 0x100 == b[0] as nat * 0x1_0000 + b[1] as nat * 0x100 + b[2] as nat;
  }

  /**
   * The request frame the client builds: flag 0, then `uint32(len(msg))` in
   * big-endian order, then the message. Go's `uint32` conversion keeps the
   * length modulo 2^32.
   */
  function Frame(msg: seq<byte>): (frame: seq<byte>)
    ensures |frame| == HeaderSize + |msg| && frame[0] == DataFlag
    ensures frame[HeaderSize..] == msg
  {
    [DataFlag] + Uint32ToBytes(|msg| % Uint32Range) + msg
  }

  /** The frame layout: five header bytes declaring the length, then the message. */
  lemma FrameLayout(msg: seq<byte>)
    ensures |Frame(msg)| == HeaderSize + |msg|
    ensures Frame(msg)[0] == DataFlag
    ensures Uint32FromBytes(Frame(msg)[1..HeaderSize]) == |msg| % Uint32Range
    ensures Frame(msg)[HeaderSize..] == msg
  {
    var f := Frame(msg);
    Uint32RoundTrip(|msg| % Uint32Range);
    assert f[1..HeaderSize] == Uint32ToBytes(|msg| % Uint32Range);
  }

  /**
   * The frame is built the way the client fills its `bytes.Buffer`: one
   * `WriteByte` for the flag, one `binary.Write` for the length, one
   * `Write` for the message.
   */
  method EncodeFrame(msg: seq<byte>) returns (buf: seq<byte>)
    ensures buf == Frame(msg)
    ensures |buf| == HeaderSize + |msg| && buf[HeaderSize..] == msg
  {
    var msgLen := |msg| % Uint32Range;
    var flags := DataFlag;
    buf := [];
    buf := buf + [flags];
    buf := buf + Uint32ToBytes(msgLen);
    buf := buf + msg;
  }

  datatype FrameError =
    | TooShort(length: nat)   // fewer than five bytes: "response too short"
    | Incomplete              // the declared length runs past the data: "response incomplete"

  /** The length a response declares in bytes 1 to 4. */
  function DeclaredLength(data: seq<byte>): nat
    requires |data| >= HeaderSize
  {
    Uint32FromBytes(data[1..HeaderSize])
  }

  /**
   * Response parsing with the bound check done over unbounded integers: the
   * message is the declared number of bytes after the header; the flag
   * byte and anything after the message are ignored.
   */
  function ParseFrame(data: seq<byte>): (r: Result<seq<byte>, FrameError>)
    ensures r == Failure(TooShort(|data|)) <==> |data| < HeaderSize
    ensures r.Success? <==> |data| >= HeaderSize && HeaderSize + DeclaredLength(data) <= |data|
    ensures |data| >= HeaderSize && HeaderSize + DeclaredLength(data) > |data| ==> r == Failure(Incomplete)
    ensures r.Success? ==> |r.value| == DeclaredLength(data) && data[HeaderSize..HeaderSize + |r.value|] == r.value
  {
    if |data| < HeaderSize then
      Failure(TooShort(|data|))
    else
      var n := DeclaredLength(data);
      if |data| < HeaderSize + n then Failure(Incomplete) else Success(data[HeaderSize..HeaderSize + n])
  }

  /** Round trip: parsing a frame the client built yields the message. */
  lemma FrameRoundTrip(msg: seq<byte>)
    requires |msg| < Uint32Range
    ensures ParseFrame(Frame(msg)) == Success(msg)
  {
    FrameLayout(msg);
    var f := Frame(msg);
    assert DeclaredLength(f) == |msg|;
    assert f[HeaderSize..HeaderSize + |msg|] == msg;
  }

  /** Bytes after the declared message are ignored. */
  lemma FrameIgnoresTrailing(msg: seq<byte>, rest: seq<byte>)
    requires |msg| < Uint32Range
    ensures ParseFrame(Frame(msg) + rest) == Success(msg)
  {
    FrameLayout(msg);
    var data := Frame(msg) + rest;
    assert data[1..HeaderSize] == Frame(msg)[1..HeaderSize];
    assert data[HeaderSize..HeaderSize + |msg|] == Frame(msg)[HeaderSize..];
  }

  /** The flag byte does not influence the result. */
  lemma ParseIgnoresFlag(data: seq<byte>, flag: byte)
    requires |data| >= 1
    ensures ParseFrame([flag] + data[1..]) == ParseFrame(data)
  {
    var other := [flag] + data[1..];
    if |data| >= HeaderSize {
      assert other[1..HeaderSize] == data[1..HeaderSize];
      assert DeclaredLength(other) == DeclaredLength(data);
      var n := DeclaredLength(data);
      if HeaderSize + n <= |data| {
        assert other[HeaderSize..HeaderSize + n] == data[HeaderSize..HeaderSize + n];
      }
    }
  }

  /**
   * A message of 2^32 bytes or more does not survive the trip: the length
   * field was truncated by the `uint32` conversion.
   */
  lemma OversizedMessageIsTruncated(msg: seq<byte>)
    requires |msg| >= Uint32Range
    ensures ParseFrame(Frame(msg)) != Success(msg)
  {
    FrameLayout(msg);
  }

  /**
   * What the Go code does with a response: a result, or a run-time panic
   * from an out-of-range slice.
   */
  datatype GoOutcome = Returned(result: Result<seq<byte>, FrameError>) | SlicePanic

  /**
   * The parsing as written: `5+responseMsgLen` is a `uint32` sum, so both the
   * check `len(responseData) < int(5+responseMsgLen)` and the slice
   * `responseData[5 : 5+responseMsgLen]` see it modulo 2^32. A Go slice whose
   * upper bound is below its lower bound panics.
   */
  function ParseFrameAsWritten(data: seq<byte>): (r: GoOutcome)
    ensures |data| < HeaderSize ==> r == Returned(Failure(TooShort(|data|)))
    ensures r == SlicePanic <==> |data| >= HeaderSize && HeaderSize + DeclaredLength(data) >= Uint32Range
  {
    if |data| < HeaderSize then
      Returned(Failure(TooShort(|data|)))
    else
      var end := (HeaderSize + DeclaredLength(data)) % Uint32Range;
      if |data| < end then Returned(Failure(Incomplete))
      else if end < HeaderSize then SlicePanic
      else Returned(Success(data[HeaderSize..end]))
  }

  /** Below the wrap-around point the code as written and the corrected parser agree. */
  lemma AsWrittenAgreesBelowWrap(data: seq<byte>)
    requires |data| >= HeaderSize ==> DeclaredLength(data) < Uint32Range - HeaderSize
    ensures ParseFrameAsWritten(data) == Returned(ParseFrame(data))
  {
  }

  /**
   * Every response declaring a length of 2^32 - 5 or more passes the bound
   * check as written and then panics on the slice.
   */
  lemma AsWrittenPanicsOnHugeLength(data: seq<byte>)
    requires |data| >= HeaderSize && DeclaredLength(data) >= Uint32Range - HeaderSize
    ensures ParseFrameAsWritten(data) == SlicePanic
    ensures |data| < Uint32Range ==> ParseFrame(data) == Failure(Incomplete)
  {
    var n := DeclaredLength(data);
    assert (HeaderSize + n) % Uint32Range == HeaderSize + n - Uint32Range;
  }

  /** A five-byte response `00 FF FF FF FF` shows it. */
  lemma AsWrittenCounterexample()
    ensures ParseFrameAsWritten([0, 0xFF, 0xFF, 0xFF, 0xFF]) == SlicePanic
    ensures ParseFrame([0, 0xFF, 0xFF, 0xFF, 0xFF]) == Failure(Incomplete)
  {
    var data: seq<byte> := [0, 0xFF, 0xFF, 0xFF, 0xFF];
    assert data[1..HeaderSize] == [0xFF, 0xFF, 0xFF, 0xFF];
    AsWrittenPanicsOnHugeLength(data);
  }
}
