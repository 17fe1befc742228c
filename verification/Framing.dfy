/** The helper protocol's frames (internal/helperproto/protocol.go): a four-byte big-endian length, a JSON request
    or response, and after a connect request a fixed frame of keys.

    A reader is the bytes still to come; JSON is an abstract codec that can read back what it wrote. */
module Framing {
  import opened Net
  import opened Faults
  import opened ByteStrings
  import opened TunnelModel

  const SCHEMA_VERSION := 2
  const SECRET_CHANNEL_VERSION := 1
  const SECRET_FRAME_BYTES := 68
  const MAX_REQUEST_BYTES := 0x1_0000

  const SECRET_MAGIC: Bytes := [78, 77, 83, 49]

  datatype Operation = Connect | Disconnect | Recover | Status | OtherOperation

  datatype Request = Request(
    schemaVersion: int, requestId: string, operation: Operation, sessionId: string, ownerUid: int,
    secretChannelVersion: int, plan: Option<Plan>)

  predicate ValidRequest(r: Request) {
    && r.schemaVersion == SCHEMA_VERSION
    && ValidSessionID(r.requestId) && ValidSessionID(r.sessionId) && r.ownerUid >= 0
    && match r.operation
       case Connect =>
         && r.secretChannelVersion == SECRET_CHANNEL_VERSION && r.plan.Some? && ValidPlan(r.plan.value)
         && r.plan.value.sessionId == r.sessionId && r.plan.value.ownerUid == r.ownerUid
       case OtherOperation => false
       case _ => r.plan.None? && r.secretChannelVersion == 0
  }

  datatype ErrorCode =
    NoCode | InvalidRequest | UnauthorizedCaller | Conflict | Transition | Rollback | Internal | OtherCode
  datatype Response = Response(
    schemaVersion: int, requestId: string, ok: bool, state: Option<Phase>, errorCode: ErrorCode)

  predicate ValidResponse(r: Response) {
    && r.schemaVersion == SCHEMA_VERSION && ValidSessionID(r.requestId)
    && r.state != Some(OtherPhase)
    && (if r.ok then r.errorCode == NoCode else r.errorCode != NoCode && r.errorCode != OtherCode)
  }

  datatype Secrets = Secrets(clientPrivateKey: Bytes, peerPublicKey: Bytes)

  predicate ValidSecrets(s: Secrets) {
    && |s.clientPrivateKey| == 32 && |s.peerPublicKey| == 32
    && !IsZero(s.clientPrivateKey) && !IsZero(s.peerPublicKey) && s.clientPrivateKey != s.peerPublicKey
  }

  datatype Codec<!T> = Codec(encode: T -> Bytes, decode: Bytes -> Option<T>)

  ghost predicate LawfulRequests(c: Codec<Request>) {
    forall r :: ValidRequest(r) ==> c.encode(r) != [] && c.decode(c.encode(r)) == Some(r)
  }

  ghost predicate LawfulResponses(c: Codec<Response>) {
    forall r :: ValidResponse(r) ==> c.encode(r) != [] && c.decode(c.encode(r)) == Some(r)
  }

  // ---------- lengths ----------

  /** `binary.BigEndian.PutUint32`. */
  function BigEndian(n: U32): (b: Bytes)
    ensures |b| == 4
  {
    [n / 0x100_0000, (n / 0x1_0000) % 256, (n / 0x100) % 256, n % 256]
  }

  /** `binary.BigEndian.Uint32`. */
  function FromBigEndian(b: Bytes): (n: U32)
    requires |b| == 4
  {
    (b[0] as int) * 0x100_0000 + (b[1] as int) * 0x1_0000 + (b[2] as int) * 0x100 + (b[3] as int)
  }

  lemma LengthRoundTrip(n: U32)
    ensures FromBigEndian(BigEndian(n)) == n
  {
    var q := n / 0x100;
    var p := q / 0x100;
    assert n / 0x1_0000 == p && n / 0x100_0000 == p / 0x100;
    assert n == q * 0x100 + n % 256 && q == p * 0x100 + q % 256 && p == (p / 0x100) * 0x100 + p % 256;
  }

  // ---------- what a frame is ----------

  function SecretFrame(s: Secrets): Bytes { SECRET_MAGIC + s.clientPrivateKey + s.peerPublicKey }

  /** The frame of a request that `EncodeFrame` accepts. */
  function Frame(c: Codec<Request>, r: Request, s: Option<Secrets>): Option<Bytes> {
    var data := c.encode(r);
    if !ValidRequest(r) || |data| > MAX_REQUEST_BYTES then None
    else if r.operation == Connect then
      if s.None? || !ValidSecrets(s.value) then None else Some(BigEndian(|data|) + data + SecretFrame(s.value))
    else if s.Some? then None
    else Some(BigEndian(|data|) + data)
  }

  function SentSecrets(s: Option<Secrets>): Bytes {
    if s.Some? && ValidSecrets(s.value) then SecretFrame(s.value) else []
  }

  /** What is written of a request if no write fails; keys are looked at only after it. */
  function Sent(c: Codec<Request>, r: Request, s: Option<Secrets>): (b: Bytes)
    ensures Frame(c, r, s).Some? ==> b == Frame(c, r, s).value
  {
    var data := c.encode(r);
    if !ValidRequest(r) || |data| > MAX_REQUEST_BYTES then []
    else BigEndian(|data|) + data + if r.operation == Connect then SentSecrets(s) else []
  }

  /** A length in bounds and that many bytes, as they stand at the front. */
  function Payload(b: Bytes): Option<Bytes> {
    if |b| < 4 then None else
      var n := FromBigEndian(b[..4]);
      if n == 0 || n > MAX_REQUEST_BYTES || |b| < 4 + n then None else Some(b[4..4 + n])
  }

  function ReadSecretFrame(b: Bytes): Option<Secrets> {
    if |b| < SECRET_FRAME_BYTES || b[..4] != SECRET_MAGIC then None else
      var s := Secrets(b[4..36], b[36..68]);
      if ValidSecrets(s) then Some(s) else None
  }

  datatype Decoded = Decoded(request: Request, secrets: Option<Secrets>)

  /** What a whole input decodes to. */
  function Decode(c: Codec<Request>, b: Bytes): Option<Decoded> {
    var data := Payload(b);
    if data.None? then None else
      var r := c.decode(data.value);
      if r.None? || !ValidRequest(r.value) then None else
        var rest := b[4 + |data.value|..];
        if r.value.operation != Connect then (if rest == [] then Some(Decoded(r.value, None)) else None)
        else
          var s := ReadSecretFrame(rest);
          if s.None? || |rest| != SECRET_FRAME_BYTES then None else Some(Decoded(r.value, s))
  }

  lemma PayloadOf(data: Bytes, rest: Bytes)
    requires 0 < |data| <= MAX_REQUEST_BYTES
    ensures Payload(BigEndian(|data|) + data + rest) == Some(data)
    ensures (BigEndian(|data|) + data + rest)[4 + |data|..] == rest
  {
    var b := BigEndian(|data|) + data + rest;
    LengthRoundTrip(|data|);
    hide BigEndian, FromBigEndian;
    assert b[..4] == BigEndian(|data|);
    assert b[4..4 + |data|] == data;
  }

  lemma SecretRoundTrip(s: Secrets)
    requires ValidSecrets(s)
    ensures |SecretFrame(s)| == SECRET_FRAME_BYTES && ReadSecretFrame(SecretFrame(s)) == Some(s)
  {
    hide IsZero;
    var b := SecretFrame(s);
    assert b[..4] == SECRET_MAGIC && b[4..36] == s.clientPrivateKey && b[36..68] == s.peerPublicKey;
  }

  /** Whatever `EncodeFrame` accepts comes back exactly. */
  lemma FrameRoundTrip(c: Codec<Request>, r: Request, s: Option<Secrets>)
    requires LawfulRequests(c) && Frame(c, r, s).Some?
    ensures Decode(c, Frame(c, r, s).value) == Some(Decoded(r, s))
  {
    hide ValidRequest, ValidSecrets;
    var data := c.encode(r);
    assert data != [] && c.decode(data) == Some(r);
    if r.operation == Connect {
      SecretRoundTrip(s.value);
      hide Payload, SecretFrame, ReadSecretFrame;
      PayloadOf(data, SecretFrame(s.value));
    } else {
      hide Payload;
      PayloadOf(data, []);
      assert BigEndian(|data|) + data + [] == BigEndian(|data|) + data;
    }
  }

  /** No accepted frame is a proper prefix of another: neither a cut nor an addition goes unnoticed. */
  lemma PrefixFree(c: Codec<Request>, b: Bytes, longer: Bytes)
    requires Decode(c, b).Some? && Decode(c, longer).Some? && b <= longer
    ensures b == longer
  {
    hide ValidRequest, ReadSecretFrame;
    assert b[..4] == longer[..4];
    var n := FromBigEndian(b[..4]);
    hide FromBigEndian;
    assert b[4..4 + n] == longer[4..4 + n];
  }

  // ---------- responses ----------

  function ResponseFrame(c: Codec<Response>, r: Response): Option<Bytes> {
    var data := c.encode(r);
    if !ValidResponse(r) || |data| > MAX_REQUEST_BYTES then None else Some(BigEndian(|data|) + data)
  }

  /** The response at the front, and what comes after it. */
  function ReadResponse(c: Codec<Response>, b: Bytes): Option<(Response, Bytes)> {
    var data := Payload(b);
    if data.None? then None else
      var r := c.decode(data.value);
      if r.None? || !ValidResponse(r.value) then None else Some((r.value, b[4 + |data.value|..]))
  }

  /** The frames of several responses, one after the other. */
  function Stream(c: Codec<Response>, rs: seq<Response>): Bytes
    requires forall i :: 0 <= i < |rs| ==> ResponseFrame(c, rs[i]).Some?
  {
    if rs == [] then [] else ResponseFrame(c, rs[0]).value + Stream(c, rs[1..])
  }

  lemma ResponseRoundTrip(c: Codec<Response>, r: Response, rest: Bytes)
    requires LawfulResponses(c) && ResponseFrame(c, r).Some?
    ensures ReadResponse(c, ResponseFrame(c, r).value + rest) == Some((r, rest))
  {
    hide ValidResponse, Payload;
    var data := c.encode(r);
    assert data != [] && c.decode(data) == Some(r);
    PayloadOf(data, rest);
  }

  // ---------- readers and writers ----------

  class Writer {
    var out: Bytes
    const runner: Runner

    constructor (runner: Runner)
      ensures out == [] && this.runner == runner
    {
      this.out, this.runner := [], runner;
    }

    /** A failed write may have written a part. */
    method Write(data: Bytes) returns (ok: bool)
      modifies this, runner
      ensures runner.Went() && (ok <==> runner.Quiet())
      ensures old(out) <= out <= old(out) + data
      ensures ok ==> out == old(out) + data
    {
      ok := runner.Attempt();
      var n := |data|;
      if !ok {
        n :| 0 <= n <= |data|;
      }
      out := out + data[..n];
      assert ok ==> data[..n] == data;
    }
  }

  class Reader {
    var rest: Bytes

    constructor (rest: Bytes)
      ensures this.rest == rest
    {
      this.rest := rest;
    }

    /** `io.ReadFull`: exactly so many bytes, or what is left is lost. */
    method ReadFull(n: nat) returns (ok: bool, data: Bytes)
      modifies this
      ensures ok <==> n <= |old(rest)|
      ensures ok ==> data == old(rest)[..n] && rest == old(rest)[n..]
    {
      if n > |rest| {
        ok, data, rest := false, [], [];
      } else {
        ok, data, rest := true, rest[..n], rest[n..];
      }
    }

    method RequireEOF() returns (ok: bool)
      modifies this
      ensures ok <==> old(rest) == []
    {
      var got, data := ReadFull(1);
      ok := !got;
    }
  }

  method WriteFrame(w: Writer, c: Codec<Request>, r: Request, s: Option<Secrets>) returns (ok: bool)
    modifies w, w.runner
    ensures w.runner.Went()
    ensures ok <==> Frame(c, r, s).Some? && w.runner.Quiet()
    ensures ok ==> w.out == old(w.out) + Frame(c, r, s).value
    // Whatever happens, what is written is what the arguments are good for, or the front of it.
    ensures old(w.out) <= w.out <= old(w.out) + Sent(c, r, s)
    ensures w.runner.Quiet() ==> w.out == old(w.out) + Sent(c, r, s)
  {
    hide ValidRequest;
    if !ValidRequest(r) {
      return false;
    }
    var data := c.encode(r);
    if |data| > MAX_REQUEST_BYTES {
      return false;
    }
    ghost var from, size := w.out, BigEndian(|data|);
    ghost var tail := if r.operation == Connect then SentSecrets(s) else [];
    FrameSent(c, r, s);
    hide Frame, Sent, SentSecrets, BigEndian;
    ok := w.Write(BigEndian(|data|));
    Longer(from, w.out, size, data);
    Longer(from, w.out, size + data, tail);
    if !ok {
      return;
    }
    ghost var mid := w.out;
    ok := w.Write(data);
    Then(from, mid, w.out, size, data);
    Longer(from, w.out, size + data, tail);
    if !ok {
      return;
    }
    mid := w.out;
    if r.operation == Connect {
      ok := WriteSecrets(w, s);
      Then(from, mid, w.out, size + data, tail);
      return;
    }
    assert size + data + [] == size + data;
    if s.Some? {
      return false;
    }
  }

  lemma FrameSent(c: Codec<Request>, r: Request, s: Option<Secrets>)
    ensures Frame(c, r, s).Some? ==> Sent(c, r, s) == Frame(c, r, s).value
    ensures ValidRequest(r) && |c.encode(r)| <= MAX_REQUEST_BYTES ==>
      var keys := s.Some? && ValidSecrets(s.value);
      && (Frame(c, r, s).Some? <==> if r.operation == Connect then keys else s.None?)
      && Sent(c, r, s) == BigEndian(|c.encode(r)|) + c.encode(r) + if r.operation == Connect then SentSecrets(s) else []
  {
    hide ValidRequest, ValidSecrets, BigEndian;
  }

  lemma Longer(from: Bytes, out: Bytes, x: Bytes, y: Bytes)
    requires from <= out <= from + x
    ensures from <= out <= from + (x + y)
  {
    assert from + (x + y) == (from + x) + y;
  }

  lemma Then(from: Bytes, mid: Bytes, out: Bytes, x: Bytes, y: Bytes)
    requires mid == from + x && mid <= out <= mid + y
    ensures from <= out <= from + (x + y) && (out == mid + y ==> out == from + (x + y))
  {
    assert from + (x + y) == (from + x) + y;
  }

  method WriteSecrets(w: Writer, s: Option<Secrets>) returns (ok: bool)
    modifies w, w.runner
    ensures w.runner.Went() && (ok <==> s.Some? && ValidSecrets(s.value) && w.runner.Quiet())
    ensures old(w.out) <= w.out <= old(w.out) + SentSecrets(s)
    ensures w.runner.Quiet() ==> w.out == old(w.out) + SentSecrets(s)
  {
    if s.None? {
      return false;
    }
    var sound := ValidateSecrets(s.value);
    if !sound {
      return false;
    }
    ok := w.Write(SecretFrame(s.value));
  }

  /** Bitwise or. */
  function Or(x: nat, y: nat): (r: nat)
    ensures r == 0 <==> x == 0 && y == 0
    decreases x + y
  {
    if x == 0 && y == 0 then 0 else 2 * Or(x / 2, y / 2) + if x % 2 == 1 || y % 2 == 1 then 1 else 0
  }

  /** The constant-time test: all bytes or-ed together. */
  method AllZero(value: Bytes) returns (ok: bool)
    ensures ok <==> IsZero(value)
  {
    var combined := 0;
    for i := 0 to |value|
      invariant combined >= 0 && (combined == 0 <==> forall k :: 0 <= k < i ==> value[k] == 0)
    {
      combined := Or(combined, value[i]);
    }
    return combined == 0;
  }

  method ValidateSecrets(s: Secrets) returns (ok: bool)
    ensures ok <==> ValidSecrets(s)
  {
    var clientZero := AllZero(s.clientPrivateKey);
    var peerZero := AllZero(s.peerPublicKey);
    // The key arrays have a fixed size.
    ok := |s.clientPrivateKey| == 32 && |s.peerPublicKey| == 32 && !clientZero && !peerZero;
    ok := ok && s.clientPrivateKey != s.peerPublicKey;
  }

  /** Reads a length in bounds and that many bytes. */
  method ReadPayload(reader: Reader) returns (data: Option<Bytes>)
    modifies reader
    ensures data == Payload(old(reader.rest))
    ensures data.Some? ==> reader.rest == old(reader.rest)[4 + |data.value|..]
  {
    var ok, size := reader.ReadFull(4);
    if !ok {
      return None;
    }
    var length := FromBigEndian(size);
    if length == 0 || length > MAX_REQUEST_BYTES {
      return None;
    }
    var bytes: Bytes;
    ok, bytes := reader.ReadFull(length);
    if !ok {
      return None;
    }
    assert bytes == old(reader.rest)[4..4 + length];
    return Some(bytes);
  }

  method DecodeFrame(reader: Reader, c: Codec<Request>) returns (r: Option<Decoded>)
    modifies reader
    ensures r == Decode(c, old(reader.rest))
  {
    hide ValidRequest, Payload, ValidSecrets;
    var data := ReadPayload(reader);
    if data.None? {
      return None;
    }
    var request := c.decode(data.value);
    if request.None? || !ValidRequest(request.value) {
      return None;
    }
    if request.value.operation != Connect {
      var ended := reader.RequireEOF();
      return if ended then Some(Decoded(request.value, None)) else None;
    }
    ghost var rest := reader.rest;
    var ok, frame := reader.ReadFull(SECRET_FRAME_BYTES);
    if !ok || frame[..4] != SECRET_MAGIC {
      return None;
    }
    var secrets := Secrets(frame[4..36], frame[36..68]);
    assert secrets == Secrets(rest[4..36], rest[36..68]) && frame[..4] == rest[..4];
    var sound := ValidateSecrets(secrets);
    if !sound {
      return None;
    }
    var ended := reader.RequireEOF();
    return if ended then Some(Decoded(request.value, Some(secrets))) else None;
  }

  /** Reads one response and not a byte more. */
  method DecodeResponse(reader: Reader, c: Codec<Response>) returns (r: Option<Response>)
    modifies reader
    ensures r.None? <==> ReadResponse(c, old(reader.rest)).None?
    ensures r.Some? ==> ReadResponse(c, old(reader.rest)) == Some((r.value, reader.rest))
  {
    hide ValidResponse, Payload;
    var data := ReadPayload(reader);
    if data.None? {
      return None;
    }
    r := c.decode(data.value);
    if r.Some? && !ValidResponse(r.value) {
      r := None;
    }
  }

  /** Responses written one after the other are read back one by one, in order, up to the first byte that is not
      theirs. */
  method DecodeStream(c: Codec<Response>, rs: seq<Response>, tail: Bytes) returns (got: seq<Response>, rest: Bytes)
    requires LawfulResponses(c) && forall i :: 0 <= i < |rs| ==> ResponseFrame(c, rs[i]).Some?
    ensures got == rs && rest == tail
  {
    hide ReadResponse, ResponseFrame, LawfulResponses;
    var reader := new Reader(Stream(c, rs) + tail);
    got := [];
    for i := 0 to |rs|
      invariant got == rs[..i] && reader.rest == Stream(c, rs[i..]) + tail
    {
      assert rs[i..][1..] == rs[i + 1..];
      assert reader.rest == ResponseFrame(c, rs[i]).value + (Stream(c, rs[i + 1..]) + tail);
      ResponseRoundTrip(c, rs[i], Stream(c, rs[i + 1..]) + tail);
      var r := DecodeResponse(reader, c);
      got := got + [r.value];
    }
    rest := reader.rest;
  }
}
