/** Length-prefixed frames on a byte pipe (`src/a2a_stdio.rs`). Payloads are opaque. */
module FrameCodec {

  type byte = x: int | 0 <= x < 256

  const HEADER_BYTES: nat := 4
  const MAX_FRAME_BYTES: nat := 16 * 1024 * 1024

  function Digit(n: int, unit: int): byte
    requires unit > 0
  {
    var quotient: int := n / unit;
    var digit: int := quotient % 256;
    digit
  }

  function ToBigEndian(n: nat): (bytes: seq<byte>)
    requires n < 0x1_0000_0000
    ensures |bytes| == HEADER_BYTES
  {
    [Digit(n, 0x100_0000), Digit(n, 0x1_0000), Digit(n, 0x100), Digit(n, 1)]
  }

  function FromBigEndian(bytes: seq<byte>): nat
    requires |bytes| == HEADER_BYTES
  {
    var a: int, b: int, c: int, d: int := bytes[0], bytes[1], bytes[2], bytes[3];
    ((a * 256 + b) * 256 + c) * 256 + d
  }

  // A number in four bytes, the highest first.
  ghost predicate IsLength(bytes: seq<byte>, n: int) {
    |bytes| == 4 && n == bytes[0] as int * 16777216 + bytes[1] as int * 65536 + bytes[2] as int * 256 + bytes[3] as int
  }

  lemma BigEndianIsLength(n: nat)
    requires n < 0x1_0000_0000
    ensures IsLength(ToBigEndian(n), n)
  {
    BigEndianRoundTrip(n);
  }

  lemma BigEndianRoundTrip(n: nat)
    requires n < 0x1_0000_0000
    ensures FromBigEndian(ToBigEndian(n)) == n
  {
    assert n / 0x1_0000 == n / 0x100 / 256 && n / 0x100_0000 == n / 0x1_0000 / 256;
  }

  lemma BigEndianIsCanonical(bytes: seq<byte>)
    requires |bytes| == HEADER_BYTES
    ensures FromBigEndian(bytes) < 0x1_0000_0000 && ToBigEndian(FromBigEndian(bytes)) == bytes
  {
    var a: int, b: int, c: int, d: int := bytes[0], bytes[1], bytes[2], bytes[3];
    var n: int := FromBigEndian(bytes);
    assert n / 0x100 == (a * 256 + b) * 256 + c;
    assert n / 0x1_0000 == n / 0x100 / 256 == a * 256 + b;
    assert n / 0x100_0000 == n / 0x1_0000 / 256 == a;
  }

  predicate ValidPayload(payload: seq<byte>) {
    1 <= |payload| <= MAX_FRAME_BYTES
  }

  predicate AllValid(payloads: seq<seq<byte>>) {
    forall i :: 0 <= i < |payloads| ==> ValidPayload(payloads[i])
  }

  function Encode(payload: seq<byte>): (bytes: seq<byte>)
    requires |payload| <= MAX_FRAME_BYTES
    ensures |bytes| == HEADER_BYTES + |payload|
  {
    ToBigEndian(|payload|) + payload
  }

  function EncodeAll(payloads: seq<seq<byte>>): seq<byte>
    requires AllValid(payloads)
  {
    if payloads == [] then [] else Encode(payloads[0]) + EncodeAll(payloads[1..])
  }

  // ---------------------------------------------------------------------------
  // Reading and writing
  // ---------------------------------------------------------------------------

  datatype ReadError = InvalidLength(length: nat) | Truncated

  datatype ReadResult = Frame(payload: seq<byte>) | EndOfStream | Failed(error: ReadError)

  // What a reader makes of the bytes still to come, and what it leaves.
  function Parse(bytes: seq<byte>): (ReadResult, seq<byte>) {
    if |bytes| < HEADER_BYTES then (EndOfStream, [])
    else
      var length, rest := FromBigEndian(bytes[..HEADER_BYTES]), bytes[HEADER_BYTES..];
      if length == 0 || length > MAX_FRAME_BYTES then (Failed(InvalidLength(length)), rest)
      else if |rest| < length then (Failed(Truncated), [])
      else (Frame(rest[..length]), rest[length..])
  }

  // All frames of a stream, and how it ended.
  function DecodeAll(bytes: seq<byte>): (seq<seq<byte>>, ReadResult)
    decreases |bytes|
  {
    var (result, rest) := Parse(bytes);
    match result
    case Frame(payload) => var (frames, end) := DecodeAll(rest); ([payload] + frames, end)
    case _ => ([], result)
  }

  lemma DecodeStep(bytes: seq<byte>)
    ensures
      var (result, rest) := Parse(bytes);
      if result.Frame? then
        |rest| < |bytes| && DecodeAll(bytes) == ([result.payload] + DecodeAll(rest).0, DecodeAll(rest).1)
      else DecodeAll(bytes) == ([], result)
  {
  }

  class FrameReader {
    const input: seq<byte>
    var position: nat

    ghost predicate Valid()
      reads this
    {
      position <= |input|
    }

    function Rest(): seq<byte>
      requires Valid()
      reads this
    {
      input[position..]
    }

    constructor (input: seq<byte>)
      ensures Valid() && Rest() == input
    {
      this.input := input;
      position := 0;
    }

    // Fills a buffer of `n` bytes, or reaches the end of the stream trying.
    method ReadExact(n: nat) returns (buffer: seq<byte>, complete: bool)
      requires Valid()
      modifies this
      ensures Valid()
      ensures complete <==> n <= |old(Rest())|
      ensures if complete then buffer == old(Rest())[..n] && Rest() == old(Rest())[n..] else Rest() == []
    {
      if |input| - position < n {
        position := |input|;
        return [], false;
      }
      buffer := input[position..position + n];
      position := position + n;
      return buffer, true;
    }

    method ReadFrame() returns (result: ReadResult)
      requires Valid()
      modifies this
      ensures Valid()
      ensures (result, Rest()) == Parse(old(Rest()))
    {
      var header, whole := ReadExact(HEADER_BYTES);
      if !whole {
        return EndOfStream;
      }
      var length := FromBigEndian(header);
      if length == 0 || length > MAX_FRAME_BYTES {
        return Failed(InvalidLength(length));
      }
      var payload, all := ReadExact(length);
      if !all {
        return Failed(Truncated);
      }
      return Frame(payload);
    }

    // The request loop: frames until the stream ends or fails.
    method ReadAll() returns (frames: seq<seq<byte>>, end: ReadResult)
      requires Valid()
      modifies this
      ensures (frames, end) == DecodeAll(old(Rest()))
    {
      hide Parse, DecodeAll;
      frames := [];
      assert [] + DecodeAll(Rest()).0 == DecodeAll(Rest()).0;
      while true
        invariant position <= |input|
        invariant DecodeAll(old(Rest())) == (frames + DecodeAll(Rest()).0, DecodeAll(Rest()).1)
        decreases |Rest()|
      {
        DecodeStep(Rest());
        var result := ReadFrame();
        if !result.Frame? {
          assert frames + [] == frames;
          return frames, result;
        }
        assert frames + ([result.payload] + DecodeAll(Rest()).0) == frames + [result.payload] + DecodeAll(Rest()).0;
        frames := frames + [result.payload];
      }
    }
  }

  class FrameWriter {
    var output: seq<byte>

    constructor ()
      ensures output == []
    {
      output := [];
    }

    method WriteFrame(payload: seq<byte>) returns (ok: bool)
      modifies this
      ensures ok <==> |payload| <= 16777216
      ensures
        var n := |old(output)|;
        ok ==> (&& |output| == n + 4 + |payload| && output[n + 4..] == payload
                && IsLength(output[n..n + 4], |payload|))
      ensures ok <==> |payload| <= MAX_FRAME_BYTES
      ensures output == if ok then old(output) + Encode(payload) else old(output)
    {
      if |payload| > MAX_FRAME_BYTES {
        return false;
      }
      BigEndianIsLength(|payload|);
      output := output + ToBigEndian(|payload|);
      output := output + payload;
      return true;
    }
  }

  // ---------------------------------------------------------------------------
  // Laws
  // ---------------------------------------------------------------------------

  lemma ParseEncoded(payload: seq<byte>, rest: seq<byte>)
    requires ValidPayload(payload)
    ensures Parse(Encode(payload) + rest) == (Frame(payload), rest)
  {
    hide ToBigEndian, FromBigEndian;
    var bytes := Encode(payload) + rest;
    assert bytes[..HEADER_BYTES] == ToBigEndian(|payload|);
    assert bytes[HEADER_BYTES..] == payload + rest;
    BigEndianRoundTrip(|payload|);
  }

  // How many whole frames lie within the first `cut` bytes.
  function WholeFrames(payloads: seq<seq<byte>>, cut: nat): (n: nat)
    ensures n <= |payloads|
  {
    if payloads == [] || cut < HEADER_BYTES + |payloads[0]| then 0
    else 1 + WholeFrames(payloads[1..], cut - HEADER_BYTES - |payloads[0]|)
  }

  // Cutting a stream of frames anywhere yields the whole frames before the cut, then
  // a clean end if the cut is at or inside a header, and an error if it is after one.
  lemma {:induction false} DecodePrefix(payloads: seq<seq<byte>>, cut: nat)
    requires AllValid(payloads)
    requires cut <= |EncodeAll(payloads)|
    ensures
      var n := WholeFrames(payloads, cut);
      && |EncodeAll(payloads[..n])| <= cut
      && DecodeAll(EncodeAll(payloads)[..cut])
         == (payloads[..n], if cut - |EncodeAll(payloads[..n])| < HEADER_BYTES then EndOfStream else Failed(Truncated))
  {
    hide ToBigEndian, FromBigEndian, Parse, DecodeAll;
    var bytes := EncodeAll(payloads)[..cut];
    DecodeStep(bytes);
    if payloads == [] {
      assert bytes == [];
      ParseNothing();
    } else {
      var first, more := payloads[0], payloads[1..];
      var size := HEADER_BYTES + |first|;
      if cut < size {
        assert bytes == Encode(first)[..cut];
        ParseCut(first, cut);
      } else {
        assert bytes == Encode(first) + EncodeAll(more)[..cut - size];
        ParseEncoded(first, EncodeAll(more)[..cut - size]);
        DecodePrefix(more, cut - size);
        var n := WholeFrames(payloads, cut);
        assert payloads[..n] == [first] + more[..n - 1];
        assert ([first] + more[..n - 1])[1..] == more[..n - 1];
      }
    }
  }

  lemma ParseCut(payload: seq<byte>, cut: nat)
    requires ValidPayload(payload) && cut < HEADER_BYTES + |payload|
    ensures Parse(Encode(payload)[..cut]).0 == if cut < HEADER_BYTES then EndOfStream else Failed(Truncated)
  {
    hide ToBigEndian, FromBigEndian;
    if cut >= HEADER_BYTES {
      assert Encode(payload)[..cut][..HEADER_BYTES] == ToBigEndian(|payload|);
      BigEndianRoundTrip(|payload|);
    }
  }

  // Decoding inverts encoding on every list of payloads of 1 byte to 16 MiB.
  lemma {:induction false} DecodeEncoded(payloads: seq<seq<byte>>)
    requires AllValid(payloads)
    ensures DecodeAll(EncodeAll(payloads)) == (payloads, EndOfStream)
  {
    hide ToBigEndian, FromBigEndian, Parse;
    if payloads != [] {
      ParseEncoded(payloads[0], EncodeAll(payloads[1..]));
      DecodeEncoded(payloads[1..]);
      assert EncodeAll(payloads) == Encode(payloads[0]) + EncodeAll(payloads[1..]);
      assert payloads == [payloads[0]] + payloads[1..];
    } else {
      ParseNothing();
    }
  }

  lemma ParseNothing()
    ensures Parse([]) == (EndOfStream, [])
  {
  }

  // And nothing else decodes to those frames: whatever was decoded from any bytes is
  // valid and encodes back to the bytes it was read from.
  lemma {:induction false} DecodingIsCanonical(bytes: seq<byte>)
    ensures AllValid(DecodeAll(bytes).0)
    ensures EncodeAll(DecodeAll(bytes).0) <= bytes
    decreases |bytes|
  {
    hide ToBigEndian, FromBigEndian;
    var (result, rest) := Parse(bytes);
    if result.Frame? {
      var payload := result.payload;
      DecodingIsCanonical(rest);
      BigEndianIsCanonical(bytes[..HEADER_BYTES]);
      assert bytes == Encode(payload) + rest;
      var frames := DecodeAll(rest).0;
      assert DecodeAll(bytes).0 == [payload] + frames && ([payload] + frames)[1..] == frames;
      assert EncodeAll([payload] + frames) == Encode(payload) + EncodeAll(frames);
    }
  }
}
