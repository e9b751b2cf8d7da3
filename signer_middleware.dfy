/**
 * The request-signing middleware. Every outbound request body is hashed,
 * the hash's hex text is signed, and the signature is attached as the
 * `x-flashbots-signature` header before the request is handed, with its
 * body unchanged, to the wrapped (inner) service.
 *
 * The hash function, the signer and the text forms of an address and of a
 * signature are library code; they are given to the model as the function
 * fields of `Crypto` and `Signer` and are not interpreted.
 */
module SignerMiddleware {
  import opened Wrappers
  import opened Types

  // ---------------------------------------------------------------------
  // The opaque collaborators
  // ---------------------------------------------------------------------

  datatype Signature = Signature(bytes: Bytes)

  datatype SignerError = SignerError(reason: string)

  /** The signer capability: an address and a fallible `sign_message`. */
  datatype Signer = Signer(address: Address, signMessage: string -> Result<Signature, SignerError>)

  /** `keccak256`, the `Debug` text of an address and the `Display` text of a signature. */
  datatype Crypto = Crypto(
    keccak256: Bytes -> TxHash,
    addressDebug: Address -> string,
    signatureDisplay: Signature -> string)

  // ---------------------------------------------------------------------
  // Lower-case hexadecimal text (the `{:x}` format of a 32-byte hash)
  // ---------------------------------------------------------------------

  predicate IsLowerHexDigit(c: char) {
    '0' <= c <= '9' || 'a' <= c <= 'f'
  }

  function HexDigit(n: int): (c: char)
    requires 0 <= n < 16
    ensures IsLowerHexDigit(c)
  {
    if n < 10 then ('0' as int + n) as char else ('a' as int + n - 10) as char
  }

  function HexDigitValue(c: char): (r: Option<int>)
    ensures r.Some? <==> IsLowerHexDigit(c)
    ensures r.Some? ==> 0 <= r.value < 16
  {
    if '0' <= c <= '9' then Some(c as int - '0' as int)
    else if 'a' <= c <= 'f' then Some(c as int - 'a' as int + 10)
    else None
  }

  /** Two lower-case hex digits per byte, most significant digit first, no prefix. */
  function LowerHex(b: Bytes): (s: string)
    ensures |s| == 2 * |b|
    ensures forall i :: 0 <= i < |s| ==> IsLowerHexDigit(s[i])
    decreases |b|
  {
    if b == [] then [] else [HexDigit(b[0] / 16), HexDigit(b[0] % 16)] + LowerHex(b[1..])
  }

  /** Reads lower-case hex text back into bytes; fails on odd length or a non-digit. */
  function HexDecode(s: string): Option<Bytes>
    decreases |s|
  {
    if s == [] then Some([])
    else if |s| == 1 then None
    else
      var hi := HexDigitValue(s[0]);
      var lo := HexDigitValue(s[1]);
      var rest := HexDecode(s[2..]);
      if hi.Some? && lo.Some? && rest.Some? then Some([hi.value * 16 + lo.value] + rest.value) else None
  }

  lemma HexDigitRoundTrip(n: int)
    requires 0 <= n < 16
    ensures HexDigitValue(HexDigit(n)) == Some(n)
  {
  }

  /** The hex text determines the bytes: decoding inverts `LowerHex`. */
  lemma {:induction false} HexRoundTrip(b: Bytes)
    ensures HexDecode(LowerHex(b)) == Some(b)
    decreases |b|
  {
    if b != [] {
      var s := LowerHex(b);
      assert s[2..] == LowerHex(b[1..]);
      HexRoundTrip(b[1..]);
      HexDigitRoundTrip(b[0] / 16);
      HexDigitRoundTrip(b[0] % 16);
      assert [b[0]] + b[1..] == b;
    }
  }

  // ---------------------------------------------------------------------
  // The signed message and the signature header
  // ---------------------------------------------------------------------

  const SignatureHeaderName: string := "x-flashbots-signature"

  /**
   * The text handed to the signer: "0x" and the 64 lower-case hex digits of
   * the body's keccak256 digest, from which the digest can be read back.
   */
  function SignedMessage(c: Crypto, body: Bytes): (m: string)
    ensures |m| == 66 && m[..2] == "0x"
    ensures forall i :: 2 <= i < |m| ==> IsLowerHexDigit(m[i])
    ensures HexDecode(m[2..]) == Some(c.keccak256(body))
  {
    var digest := c.keccak256(body);
    HexRoundTrip(digest);
    assert ("0x" + LowerHex(digest))[2..] == LowerHex(digest);
    "0x" + LowerHex(digest)
  }

  /** Bodies whose signed messages agree have the same digest. */
  lemma SignedMessageDeterminesDigest(c: Crypto, body1: Bytes, body2: Bytes)
    ensures SignedMessage(c, body1) == SignedMessage(c, body2) <==> c.keccak256(body1) == c.keccak256(body2)
  {
  }

  /**
   * Splits a header value "<address>:0x<signature>" at its first colon,
   * which must be followed by "0x".
   */
  function SplitSignatureHeader(v: string): Option<(string, string)>
    decreases |v|
  {
    if v == [] then None
    else if v[0] == ':' then (if |v| >= 3 && v[1..3] == "0x" then Some(([], v[3..])) else None)
    else
      match SplitSignatureHeader(v[1..])
      case None => None
      case Some(parts) => Some(([v[0]] + parts.0, parts.1))
  }

  lemma {:induction false} SplitJoined(address: string, signature: string)
    ensures ':' !in address ==> SplitSignatureHeader(address + ":0x" + signature) == Some((address, signature))
    decreases |address|
  {
    var v := address + ":0x" + signature;
    if ':' in address {
    } else if address == [] {
      assert v == ":0x" + signature;
      assert v[1..3] == "0x" && v[3..] == signature;
    } else {
      assert v[0] == address[0];
      assert v[1..] == address[1..] + ":0x" + signature;
      SplitJoined(address[1..], signature);
      assert [address[0]] + address[1..] == address;
    }
  }

  /**
   * The header value: the address text, ":0x", the signature text. When the
   * address text holds no colon, the two texts can be read back from it.
   */
  function SignatureHeaderValue(c: Crypto, address: Address, signature: Signature): (v: string)
    ensures ':' !in c.addressDebug(address) ==>
      SplitSignatureHeader(v) == Some((c.addressDebug(address), c.signatureDisplay(signature)))
  {
    var addressText := c.addressDebug(address);
    var signatureText := c.signatureDisplay(signature);
    SplitJoined(addressText, signatureText);
    addressText + ":0x" + signatureText
  }

  /** The bytes a header value admits: visible ASCII, tab, and anything beyond ASCII. */
  predicate IsValidHeaderValue(s: string) {
    forall i :: 0 <= i < |s| ==> s[i] == '\t' || (s[i] as int >= 32 && s[i] as int != 127)
  }

  // ---------------------------------------------------------------------
  // Requests
  // ---------------------------------------------------------------------

  /** The head of an HTTP request; `headers` maps a lower-case name to its values. */
  datatype Parts = Parts(httpMethod: string, uri: string, version: string, headers: map<string, seq<string>>)

  datatype Request = Request(parts: Parts, body: Bytes)

  datatype Response = Response(status: int, body: Bytes)

  datatype TransportError = TransportError(reason: string)

  /** Why a call is aborted before forwarding (each is an `unwrap` panic in the source). */
  datatype Abort = SigningFailed(error: SignerError) | InvalidHeaderValue(text: string)

  /**
   * The work of one call before forwarding: sign the body's message and put
   * the signature header into the request head. `insert` replaces every
   * earlier value of the header.
   */
  function SignRequest(c: Crypto, signer: Signer, request: Request): (r: Result<Request, Abort>)
    ensures signer.signMessage(SignedMessage(c, request.body)).Failure? ==>
      r == Failure(SigningFailed(signer.signMessage(SignedMessage(c, request.body)).error))
    ensures r.Success? <==>
      signer.signMessage(SignedMessage(c, request.body)).Success? &&
      IsValidHeaderValue(SignatureHeaderValue(c, signer.address, signer.signMessage(SignedMessage(c, request.body)).value))
    ensures r.Success? ==>
      && r.value.body == request.body
      && r.value.parts.httpMethod == request.parts.httpMethod
      && r.value.parts.uri == request.parts.uri
      && r.value.parts.version == request.parts.version
      && SignatureHeaderName in r.value.parts.headers
      && r.value.parts.headers[SignatureHeaderName] ==
           [SignatureHeaderValue(c, signer.address, signer.signMessage(SignedMessage(c, request.body)).value)]
      && (forall name :: name != SignatureHeaderName ==>
            (name in r.value.parts.headers <==> name in request.parts.headers))
      && (forall name :: name != SignatureHeaderName && name in request.parts.headers ==>
            r.value.parts.headers[name] == request.parts.headers[name])
  {
    match signer.signMessage(SignedMessage(c, request.body))
    case Failure(e) => Failure(SigningFailed(e))
    case Success(signature) =>
      var value := SignatureHeaderValue(c, signer.address, signature);
      if IsValidHeaderValue(value) then
        Success(Request(request.parts.(headers := request.parts.headers[SignatureHeaderName := [value]]), request.body))
      else
        Failure(InvalidHeaderValue(value))
  }

  /**
   * The header value depends only on the signer's address and its answer for
   * the body's message: the rest of the request plays no part.
   */
  lemma SignatureHeaderDeterministic(c: Crypto, signer1: Signer, signer2: Signer, request1: Request, request2: Request)
    requires signer1.address == signer2.address && request1.body == request2.body
    requires signer1.signMessage(SignedMessage(c, request1.body)) == signer2.signMessage(SignedMessage(c, request2.body))
    ensures SignRequest(c, signer1, request1).Success? == SignRequest(c, signer2, request2).Success?
    ensures SignRequest(c, signer1, request1).Success? ==>
      SignRequest(c, signer1, request1).value.parts.headers[SignatureHeaderName] ==
      SignRequest(c, signer2, request2).value.parts.headers[SignatureHeaderName]
  {
  }

  // ---------------------------------------------------------------------
  // The services
  // ---------------------------------------------------------------------

  /** The readiness answer of a service: ready (or failed), or not yet. */
  datatype Poll = Ready(result: Result<(), TransportError>) | Pending

  /**
   * The inner service the middleware wraps: its readiness, how it answers a
   * request, and the requests it has been called with on this handle.
   */
  class Transport {
    const respond: Request -> Result<Response, TransportError>
    const readiness: Poll
    var received: seq<Request>

    constructor (respond: Request -> Result<Response, TransportError>, readiness: Poll)
      ensures this.respond == respond && this.readiness == readiness && received == []
    {
      this.respond := respond;
      this.readiness := readiness;
      received := [];
    }

    method PollReady() returns (p: Poll)
      ensures p == readiness
    {
      p := readiness;
    }

    method Call(request: Request) returns (r: Result<Response, TransportError>)
      modifies this
      ensures received == old(received) + [request] && r == respond(request)
    {
      received := received + [request];
      r := respond(request);
    }

    /** A new handle on the same service. */
    method Clone() returns (c: Transport)
      ensures fresh(c) && c.respond == respond && c.readiness == readiness && c.received == []
    {
      c := new Transport(respond, readiness);
    }
  }

  /** The layer: it holds the shared signer and wraps services. */
  datatype FlashbotsSignerLayer = FlashbotsSignerLayer(signer: Signer)
  {
    method Layer(inner: Transport) returns (s: FlashbotsSigner)
      ensures fresh(s) && s.signer == signer && s.inner == inner
    {
      s := new FlashbotsSigner(signer, inner);
    }
  }

  /** The signing service around an inner service. */
  class FlashbotsSigner {
    const signer: Signer
    var inner: Transport

    constructor (signer: Signer, inner: Transport)
      ensures this.signer == signer && this.inner == inner
    {
      this.signer := signer;
      this.inner := inner;
    }

    /** Readiness is the inner service's, unchanged. */
    method PollReady() returns (p: Poll)
      ensures p == inner.readiness
    {
      p := inner.PollReady();
    }

    /**
     * Keeps a fresh clone of the inner service for later calls, signs the
     * request and, only when signing succeeded, forwards the signed request to
     * the inner service held before, returning its answer unchanged.
     */
    method Call(c: Crypto, request: Request) returns (r: Result<Result<Response, TransportError>, Abort>)
      modifies this, inner
      ensures fresh(inner) && inner.respond == old(inner.respond) && inner.readiness == old(inner.readiness)
      ensures inner.received == []
      ensures SignRequest(c, signer, request).Failure? ==>
        r == Failure(SignRequest(c, signer, request).error) && old(inner).received == old(inner.received)
      ensures SignRequest(c, signer, request).Success? ==>
        && r == Success(old(inner.respond)(SignRequest(c, signer, request).value))
        && old(inner).received == old(inner.received) + [SignRequest(c, signer, request).value]
    {
      var clone := inner.Clone();
      var previous := inner;
      inner := clone;
      match SignRequest(c, signer, request)
      case Failure(e) =>
        r := Failure(e);
      case Success(signed) =>
        var response := previous.Call(signed);
        r := Success(response);
    }
  }
}
