/**
 * The server's `CheckHash` middleware: the guard chain that verifies a
 * request's HashSHA256 header against the body before the handler runs,
 * and the hash it puts on the response afterwards. The downstream handler
 * is a function from the body it reads to its status and Content-Type.
 */
module Middleware {
  import opened Wrappers
  import opened Bytes
  import opened Signing
  import opened Sender

  /** `c.GetHeader(k)`: the value, or "" when the header is absent. */
  function GetHeader(h: map<string, string>, k: string): string {
    if k in h then h[k] else ""
  }

  /** What the downstream handler answered. */
  datatype HandlerResponse = HandlerResponse(status: int, contentType: string)

  /**
   * One request through the middleware: the final status, whether the
   * handler ran, the body it read, and the HashSHA256 response header set
   * afterwards (None when none is set).
   */
  datatype Exchange = Exchange(status: int, handlerRan: bool, bodySeen: Option<Bytes>, responseHash: Option<string>)

  /** The hash over Content-Type, path and raw query that signs a response. */
  function ResponseHash(hmac: Mac, secretKey: string, contentType: string, path: string, rawQuery: string): string {
    CalculateHash(hmac, Utf8(contentType + path + rawQuery), Utf8(secretKey))
  }

  /**
   * `CheckHash(secretKey)`: an empty key passes the request through
   * unchecked; otherwise an empty or missing header, an unreadable body
   * (`body` is None) or a header that is not the hash of the body aborts
   * with 400 before the handler. A verified request reaches the handler
   * with the very bytes that were read, and its response is signed.
   */
  function CheckHash(hmac: Mac, secretKey: string, hashHeader: string, body: Option<Bytes>,
                     path: string, rawQuery: string, next: Option<Bytes> -> HandlerResponse): Exchange {
    if secretKey == "" then
      var r := next(body);
      Exchange(r.status, true, body, None)
    else if hashHeader == "" || body.None? || hashHeader != CalculateHash(hmac, body.value, Utf8(secretKey)) then
      Exchange(400, false, None, None)
    else
      var r := next(body);
      Exchange(r.status, true, body, Some(ResponseHash(hmac, secretKey, r.contentType, path, rawQuery)))
  }

  /**
   * The guard chain in full: the handler runs exactly when the key is
   * empty or the header is the hash of the readable body; otherwise the
   * status is 400. A handler that runs sees the body unchanged, and only
   * a verified request gets a response hash.
   */
  lemma CheckHashGuards(hmac: Mac, secretKey: string, hashHeader: string, body: Option<Bytes>,
                        path: string, rawQuery: string, next: Option<Bytes> -> HandlerResponse)
    ensures var e := CheckHash(hmac, secretKey, hashHeader, body, path, rawQuery, next);
      && (e.handlerRan <==>
            secretKey == "" || (hashHeader != "" && body.Some? && hashHeader == CalculateHash(hmac, body.value, Utf8(secretKey))))
      && (!e.handlerRan ==> e.status == 400 && e.responseHash.None?)
      && (e.handlerRan ==> e.bodySeen == body && e.status == next(body).status)
      && (e.responseHash.Some? <==> e.handlerRan && secretKey != "")
      && (e.responseHash.Some? ==> e.responseHash.value == ResponseHash(hmac, secretKey, next(body).contentType, path, rawQuery))
  {
  }

  /** With a key set, a request without the header never reaches the handler. */
  lemma MissingHeaderRejected(hmac: Mac, secretKey: string, body: Option<Bytes>,
                              path: string, rawQuery: string, next: Option<Bytes> -> HandlerResponse)
    requires secretKey != ""
    ensures CheckHash(hmac, secretKey, GetHeader(map[], HashHeader), body, path, rawQuery, next) == Exchange(400, false, None, None)
  {
  }

  /**
   * Sender and receiver agree: a plain batch the agent signs with key `k`
   * passes `CheckHash(k)`, and the handler reads exactly the JSON that was
   * signed. This needs the tag to be non-empty, as a SHA-256 tag (32
   * bytes) is: the hex of an empty tag would read as a missing header.
   */
  lemma SignedBatchAccepted(k: string, json: Bytes, p: Primitives, path: string, rawQuery: string,
                            next: Option<Bytes> -> HandlerResponse)
    requires k != "" && |p.hmac(Utf8(k), json)| == MacSize
    ensures Shape(k, json, false, None, p).Some?
    ensures var r := Shape(k, json, false, None, p).value;
      var e := CheckHash(p.hmac, k, GetHeader(r.headers, HashHeader), Some(r.body), path, rawQuery, next);
      e.handlerRan && e.bodySeen == Some(json)
  {
    ShapeHeaders(k, json, false, None, p);
    ShapeBody(k, json, false, None, p);
    var r := Shape(k, json, false, None, p).value;
    var h := CalculateHash(p.hmac, json, Utf8(k));
    assert r.headers[HashHeader] == h && |h| == 2 * MacSize;
  }

  /**
   * A batch the agent compresses or encrypts carries no signature, so a
   * server with a key set rejects it with 400 whatever key the agent has:
   * with signing on both sides, only plain batches are ever accepted.
   */
  lemma UnsignedBatchRejected(k: string, serverKey: string, json: Bytes, compress: bool, rsa: Option<PublicKey>,
                              p: Primitives, seen: Option<Bytes>, path: string, rawQuery: string,
                              next: Option<Bytes> -> HandlerResponse)
    requires serverKey != "" && (compress || rsa.Some?)
    requires Shape(k, json, compress, rsa, p).Some?
    ensures var r := Shape(k, json, compress, rsa, p).value;
      CheckHash(p.hmac, serverKey, GetHeader(r.headers, HashHeader), seen, path, rawQuery, next) == Exchange(400, false, None, None)
  {
    ShapeHeaders(k, json, compress, rsa, p);
  }

  /** A batch signed under one key is rejected by a server holding a key whose MAC of the body differs. */
  lemma WrongKeyRejected(k: string, serverKey: string, json: Bytes, p: Primitives, path: string, rawQuery: string,
                         next: Option<Bytes> -> HandlerResponse)
    requires k != "" && serverKey != ""
    requires p.hmac(Utf8(k), json) != p.hmac(Utf8(serverKey), json)
    ensures Shape(k, json, false, None, p).Some?
    ensures var r := Shape(k, json, false, None, p).value;
      !CheckHash(p.hmac, serverKey, GetHeader(r.headers, HashHeader), Some(r.body), path, rawQuery, next).handlerRan
  {
    ShapeHeaders(k, json, false, None, p);
    ShapeBody(k, json, false, None, p);
    HashesAgree(p.hmac, json, Utf8(k), json, Utf8(serverKey));
  }
}
