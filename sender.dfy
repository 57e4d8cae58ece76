/**
 * The agent's delivery of metrics (`internal/sender`): the gzip probe, the
 * URL of a single-metric post, the shape of a batch request (compressed,
 * encrypted or plain, and whether it is signed), the retry loop, and the
 * batch send that strings them together. Compression, encryption, the MAC
 * and JSON marshalling are abstract functions.
 */
module Sender {
  import opened Wrappers
  import opened Bytes
  import opened Strconv
  import opened Model
  import opened Signing
  import opened MapRange

  /** `fmt.Sprintf("http://%s/updates/", address)`, where `Send` posts batches. */
  function UpdatesURL(address: string): string {
    "http://" + address + "/updates/"
  }

  /** The answer to the probe `GET` of the base URL; an absent header reads as "". */
  datatype Probe = RequestFailed | Answered(contentEncoding: string)

  /** `gzipIsSupported`: false when the probe fails, else whether the server answered gzip-encoded. */
  function GzipIsSupported(p: Probe): (r: bool)
    ensures r <==> p.Answered? && p.contentEncoding == "gzip"
    ensures p.RequestFailed? ==> !r
  {
    match p
    case RequestFailed => false
    case Answered(enc) => enc == "gzip"
  }

  // ---- single-metric URL -------------------------------------------------

  /** `sendPostRequest` dereferences Value for a gauge and Delta for anything else. */
  predicate CanFormat(m: Metrics) {
    if m.mType == GaugeType then m.value.Some? else m.delta.Some?
  }

  /** The value segment: `%g` of Value (abstract) for a gauge, `%d` of Delta otherwise. */
  function ValueText(m: Metrics, formatFloat: Float64 -> string): string
    requires CanFormat(m)
  {
    if m.mType == GaugeType then formatFloat(m.value.value) else Itoa(m.delta.value)
  }

  /** `fmt.Sprintf("%s%s/%s/%s", url, type, id, value)`. */
  function SingleMetricURL(url: string, m: Metrics, formatFloat: Float64 -> string): (r: string)
    requires CanFormat(m)
    ensures |r| >= |url| && r[..|url|] == url
  {
    url + m.mType + "/" + m.id + "/" + ValueText(m, formatFloat)
  }

  /** `strings.Split(s, "/")`. */
  function Split(s: string): (r: seq<string>)
    ensures |r| >= 1
  {
    if s == [] then [""]
    else
      var rest := Split(s[1..]);
      if s[0] == '/' then [""] + rest else [[s[0]] + rest[0]] + rest[1..]
  }

  lemma {:induction false} SplitJoin(a: string, b: string)
    requires '/' !in a
    ensures Split(a + "/" + b) == [a] + Split(b)
  {
    if a == [] {
      assert a + "/" + b == "/" + b;
      assert ("/" + b)[1..] == b;
    } else {
      assert (a + "/" + b)[0] == a[0];
      assert (a + "/" + b)[1..] == a[1..] + "/" + b;
      SplitJoin(a[1..], b);
      assert [a[0]] + a[1..] == a;
    }
  }

  lemma {:induction false} SplitPlain(a: string)
    requires '/' !in a
    ensures Split(a) == [a]
  {
    if a != [] {
      SplitPlain(a[1..]);
      assert [a[0]] + a[1..] == a;
    }
  }

  /** Printed integers contain no slash. */
  lemma ItoaHasNoSlash(n: int)
    ensures '/' !in Itoa(n)
  {
    var r := Itoa(n);
    if n >= 0 {
      assert forall i :: 0 <= i < |r| ==> r[i] in Digits;
    } else {
      var d := NatDigits(-n);
      assert forall i :: 0 <= i < |d| ==> d[i] in Digits;
      assert r == [r[0]] + d;
    }
  }

  /**
   * The URL the agent builds splits back, after the base, into exactly the
   * three segments the server's `/update/:type/:name/:value` route binds,
   * provided the type, the name and a printed gauge value carry no slash.
   */
  lemma SingleMetricURLSegments(url: string, m: Metrics, formatFloat: Float64 -> string)
    requires CanFormat(m) && '/' !in m.mType && '/' !in m.id
    requires m.mType == GaugeType ==> '/' !in formatFloat(m.value.value)
    ensures var r := SingleMetricURL(url, m, formatFloat);
      Split(r[|url|..]) == [m.mType, m.id, ValueText(m, formatFloat)]
  {
    var r := SingleMetricURL(url, m, formatFloat);
    var v := ValueText(m, formatFloat);
    if m.mType != GaugeType {
      ItoaHasNoSlash(m.delta.value);
    }
    assert r[|url|..] == m.mType + "/" + (m.id + "/" + v);
    SplitJoin(m.mType, m.id + "/" + v);
    SplitJoin(m.id, v);
    SplitPlain(v);
  }

  // ---- request shaping ---------------------------------------------------

  const ContentTypeHeader: string := "Content-Type"
  const ContentEncodingHeader: string := "Content-Encoding"
  const HashHeader: string := "HashSHA256"
  const JsonType: string := "application/json"
  const OctetStream: string := "application/octet-stream"

  /** An RSA public key; its contents matter only to the abstract encryption. */
  datatype PublicKey = PublicKey(n: nat, e: nat)

  /**
   * The foreign primitives: gzip compression (RFC 1952), RSA PKCS#1 v1.5
   * encryption (section 7.2 of RFC 8017) and HMAC-SHA256. The first two
   * can fail.
   */
  datatype Primitives = Primitives(
    gzip: Bytes -> Option<Bytes>,
    encrypt: (PublicKey, Bytes) -> Option<Bytes>,
    hmac: Mac)

  /** The three branches of the body switch. */
  datatype Route = Gzip | Encrypted | Plain

  /** gzip only without an RSA key; an RSA key wins over compression. */
  function RouteOf(compress: bool, rsa: Option<PublicKey>): (r: Route)
    ensures r == Gzip <==> compress && rsa.None?
    ensures r == Encrypted <==> rsa.Some?
    ensures r == Plain <==> !compress && rsa.None?
  {
    if compress && rsa.None? then Gzip else if rsa.Some? then Encrypted else Plain
  }

  /** The signature is attached only to a plain body. */
  predicate Signs(key: string, compress: bool, rsa: Option<PublicKey>) {
    key != "" && rsa.None? && !compress
  }

  /** A request ready to post: its headers and its body. */
  datatype Shaped = Shaped(headers: map<string, string>, body: Bytes)

  /**
   * The request `sendPostBatchRequest` builds from the marshalled batch,
   * or None when compression or encryption fails and nothing is sent.
   */
  function Shape(key: string, json: Bytes, compress: bool, rsa: Option<PublicKey>, p: Primitives): Option<Shaped> {
    var (body, headers) := match RouteOf(compress, rsa)
      case Gzip => (p.gzip(json), map[][ContentEncodingHeader := "gzip"][ContentTypeHeader := JsonType])
      case Encrypted => (p.encrypt(rsa.value, json), map[][ContentTypeHeader := OctetStream])
      case Plain => (Some(json), map[][ContentTypeHeader := JsonType]);
    if body.None? then None
    else if Signs(key, compress, rsa) then
      Some(Shaped(headers[HashHeader := CalculateHash(p.hmac, json, Utf8(key))], body.value))
    else Some(Shaped(headers, body.value))
  }

  /** Nothing is sent exactly when the compression or encryption the route calls for fails. */
  lemma ShapeFails(key: string, json: Bytes, compress: bool, rsa: Option<PublicKey>, p: Primitives)
    ensures Shape(key, json, compress, rsa, p).None? <==>
      (compress && rsa.None? && p.gzip(json).None?) || (rsa.Some? && p.encrypt(rsa.value, json).None?)
  {
  }

  /**
   * The headers of a shaped request: Content-Type is octet-stream exactly
   * on the RSA route and JSON otherwise; Content-Encoding is gzip and
   * appears exactly on the gzip route; HashSHA256 appears exactly when the
   * key is set and the body is neither compressed nor encrypted, and is the
   * hash of the JSON; no other header is set.
   */
  lemma ShapeHeaders(key: string, json: Bytes, compress: bool, rsa: Option<PublicKey>, p: Primitives)
    requires Shape(key, json, compress, rsa, p).Some?
    ensures var h := Shape(key, json, compress, rsa, p).value.headers;
      && h.Keys <= {ContentTypeHeader, ContentEncodingHeader, HashHeader}
      && ContentTypeHeader in h
      && h[ContentTypeHeader] == (if rsa.Some? then OctetStream else JsonType)
      && (ContentEncodingHeader in h <==> compress && rsa.None?)
      && (ContentEncodingHeader in h ==> h[ContentEncodingHeader] == "gzip")
      && (HashHeader in h <==> key != "" && rsa.None? && !compress)
      && (HashHeader in h ==> h[HashHeader] == CalculateHash(p.hmac, json, Utf8(key)))
  {
  }

  /** The body: the compressed JSON, the encrypted JSON, or the JSON itself. */
  lemma ShapeBody(key: string, json: Bytes, compress: bool, rsa: Option<PublicKey>, p: Primitives)
    requires Shape(key, json, compress, rsa, p).Some?
    ensures var b := Shape(key, json, compress, rsa, p).value.body;
      && (compress && rsa.None? ==> Some(b) == p.gzip(json))
      && (rsa.Some? ==> Some(b) == p.encrypt(rsa.value, json))
      && (!compress && rsa.None? ==> b == json)
  {
  }

  /** A request mid-construction: resty's header map and body. */
  class Request {
    var headers: map<string, string>
    var body: Bytes

    constructor ()
      ensures headers == map[] && body == []
    {
      headers := map[];
      body := [];
    }

    method SetHeader(k: string, v: string)
      modifies this
      ensures headers == old(headers)[k := v] && body == old(body)
    {
      headers := headers[k := v];
    }

    method SetBody(b: Bytes)
      modifies this
      ensures body == b && headers == old(headers)
    {
      body := b;
    }
  }

  /** The switch and the signing step of `sendPostBatchRequest`; null when it returns early. */
  method ShapeRequest(key: string, json: Bytes, compress: bool, rsa: Option<PublicKey>, p: Primitives)
    returns (request: Request?)
    ensures request == null <==> Shape(key, json, compress, rsa, p).None?
    ensures request != null ==> fresh(request) && Some(Shaped(request.headers, request.body)) == Shape(key, json, compress, rsa, p)
  {
    request := new Request();
    var bodyToSend: Bytes;
    if compress && rsa.None? {
      request.SetHeader(ContentEncodingHeader, "gzip");
      request.SetHeader(ContentTypeHeader, JsonType);
      var compressed := p.gzip(json);
      if compressed.None? {
        return null;
      }
      bodyToSend := compressed.value;
    } else if rsa.Some? {
      request.SetHeader(ContentTypeHeader, OctetStream);
      var encrypted := p.encrypt(rsa.value, json);
      if encrypted.None? {
        return null;
      }
      bodyToSend := encrypted.value;
    } else {
      request.SetHeader(ContentTypeHeader, JsonType);
      bodyToSend := json;
    }
    if key != "" && rsa.None? && !compress {
      var hash := CalculateHash(p.hmac, json, Utf8(key));
      request.SetHeader(HashHeader, hash);
    }
    request.SetBody(bodyToSend);
  }

  // ---- the batch slice ---------------------------------------------------

  /** The `for _, m := range metrics` loop: one element per entry, in the order the keys were visited. */
  method ToSlice(metrics: map<string, Metrics>) returns (order: seq<string>, slice: seq<Metrics>)
    ensures ListsKeys(metrics, order) && |slice| == |order|
    ensures forall i :: 0 <= i < |order| ==> slice[i] == metrics[order[i]]
  {
    order, slice := [], [];
    var rest := metrics.Keys;
    VisitingStart(metrics);
    while rest != {}
      invariant Visiting(metrics, order, rest)
      invariant |slice| == |order|
      invariant forall i :: 0 <= i < |order| ==> slice[i] == metrics[order[i]]
      decreases |rest|
    {
      var k :| k in rest;
      VisitingStep(metrics, order, rest, k);
      order, slice := order + [k], slice + [metrics[k]];
      rest := rest - {k};
    }
    VisitingDone(metrics, order);
  }

  // ---- retries -----------------------------------------------------------

  const RetryCount: nat := 3

  /** What one `Post` returned: a transport error or a response status. */
  datatype Attempt = TransportError | Status(code: int)

  predicate Succeeded(a: Attempt) {
    a.Status? && a.code == 200
  }

  /** The sleeps after `n` failed attempts: 1, 3, 5, ... seconds. */
  function Backoff(n: nat): (r: seq<nat>)
    ensures |r| == n
  {
    if n == 0 then [] else Backoff(n - 1) + [2 * n - 1]
  }

  function TotalSeconds(ds: seq<nat>): nat {
    if ds == [] then 0 else TotalSeconds(ds[..|ds| - 1]) + ds[|ds| - 1]
  }

  /** Waiting after `n` failures takes `n * n` seconds in all. */
  lemma {:induction false} BackoffTotal(n: nat)
    ensures TotalSeconds(Backoff(n)) == n * n
  {
    if n > 0 {
      var b := Backoff(n);
      assert b[..n - 1] == Backoff(n - 1);
      BackoffTotal(n - 1);
    }
  }

  /**
   * What `postWithRetry` did, attempt `i` returning `attempt(i)`: it stopped
   * at the first status 200 among the first three attempts, or gave up
   * after three, sleeping after every failed attempt, the last included.
   */
  ghost predicate Retried(attempt: nat -> Attempt, ok: bool, attempts: nat, sleeps: seq<nat>) {
    && 1 <= attempts <= RetryCount
    && (ok ==> Succeeded(attempt(attempts - 1)))
    && (!ok ==> attempts == RetryCount && !Succeeded(attempt(RetryCount - 1)))
    && (forall j :: 0 <= j < attempts - 1 ==> !Succeeded(attempt(j)))
    && sleeps == Backoff(if ok then attempts - 1 else attempts)
  }

  method PostWithRetry(attempt: nat -> Attempt) returns (ok: bool, attempts: nat, sleeps: seq<nat>)
    ensures Retried(attempt, ok, attempts, sleeps)
    ensures !ok ==> TotalSeconds(sleeps) == 9
  {
    var delay := 1;
    sleeps := [];
    var i := 0;
    while i < RetryCount
      invariant i <= RetryCount
      invariant delay == 2 * i + 1
      invariant sleeps == Backoff(i)
      invariant forall j :: 0 <= j < i ==> !Succeeded(attempt(j))
    {
      var a := attempt(i);
      if a.Status? && a.code == 200 {
        return true, i + 1, sleeps;
      }
      sleeps := sleeps + [delay];
      delay := delay + 2;
      i := i + 1;
    }
    BackoffTotal(RetryCount);
    return false, RetryCount, sleeps;
  }

  // ---- the batch send ----------------------------------------------------

  /** How a batch send ended: nothing sent, or posted with the retry loop's result. */
  datatype Delivery =
    | MarshalFailed
    | ShapeFailed
    | Posted(url: string, request: Shaped, ok: bool, attempts: nat, sleeps: seq<nat>)

  /** The delivery a batch whose marshalled form is `json` gets. */
  ghost predicate Delivered(d: Delivery, key: string, url: string, json: Option<Bytes>, compress: bool,
                            rsa: Option<PublicKey>, p: Primitives, attempt: nat -> Attempt) {
    match json
    case None => d == MarshalFailed
    case Some(j) =>
      match Shape(key, j, compress, rsa, p)
      case None => d == ShapeFailed
      case Some(r) => d.Posted? && d.url == url && d.request == r && Retried(attempt, d.ok, d.attempts, d.sleeps)
  }

  /** `sendPostBatchRequest`: slice the map, marshal the slice, shape the request, post it with retries. */
  method SendPostBatchRequest(key: string, url: string, metrics: map<string, Metrics>, compress: bool,
                              rsa: Option<PublicKey>, p: Primitives, marshal: seq<Metrics> -> Option<Bytes>,
                              attempt: nat -> Attempt)
    returns (order: seq<string>, slice: seq<Metrics>, d: Delivery)
    ensures ListsKeys(metrics, order) && |slice| == |order|
    ensures forall i :: 0 <= i < |order| ==> slice[i] == metrics[order[i]]
    ensures Delivered(d, key, url, marshal(slice), compress, rsa, p, attempt)
  {
    order, slice := ToSlice(metrics);
    var json := marshal(slice);
    if json.None? {
      return order, slice, MarshalFailed;
    }
    var request := ShapeRequest(key, json.value, compress, rsa, p);
    if request == null {
      return order, slice, ShapeFailed;
    }
    var ok, attempts, sleeps := PostWithRetry(attempt);
    d := Posted(url, Shaped(request.headers, request.body), ok, attempts, sleeps);
  }

  /**
   * `Send`: probe gzip support afresh, load the RSA key when a path is set
   * (`keyLoad` is the result; a failed load is fatal, None here), and send
   * the batch to the updates URL.
   */
  method Send(serverAddress: string, cryptoPath: string, key: string, keyLoad: Option<PublicKey>,
              probe: Probe, metrics: map<string, Metrics>, p: Primitives,
              marshal: seq<Metrics> -> Option<Bytes>, attempt: nat -> Attempt)
    returns (order: seq<string>, slice: seq<Metrics>, d: Option<Delivery>)
    ensures d.None? <==> cryptoPath != "" && keyLoad.None?
    ensures d.Some? ==> ListsKeys(metrics, order) && |slice| == |order|
    ensures d.Some? ==> forall i :: 0 <= i < |order| ==> slice[i] == metrics[order[i]]
    ensures d.Some? ==>
      var rsa := if cryptoPath != "" then keyLoad else None;
      Delivered(d.value, key, UpdatesURL(serverAddress), marshal(slice), GzipIsSupported(probe), rsa, p, attempt)
  {
    var url := UpdatesURL(serverAddress);
    var compress := GzipIsSupported(probe);
    var rsa: Option<PublicKey> := None;
    if cryptoPath != "" {
      if keyLoad.None? {
        return [], [], None;
      }
      rsa := keyLoad;
    }
    var delivery;
    order, slice, delivery := SendPostBatchRequest(key, url, metrics, compress, rsa, p, marshal, attempt);
    d := Some(delivery);
  }
}
