/** What is hashed: fields, each after its length as eight big-endian bytes. Equal inputs to the hash are equal
    requests, so with an injective digest equal fingerprints are too. */
module Fingerprints {
  import opened Outcome
  import opened ResultText

  type Bytes = seq<byte>

  const LIMIT: nat := 0x1_0000_0000_0000_0000

  /** `to_be_bytes` of the given width. */
  function BigEndian(n: nat, width: nat): (r: Bytes)
    ensures |r| == width
  {
    if width == 0 then [] else BigEndian(n / 256, width - 1) + [n % 256]
  }

  function FromBigEndian(b: Bytes): nat {
    if b == [] then 0 else FromBigEndian(b[..|b| - 1]) * 256 + b[|b| - 1]
  }

  function Power(width: nat): nat { if width == 0 then 1 else 256 * Power(width - 1) }

  lemma {:induction false} BigEndianRoundTrip(n: nat, width: nat)
    requires n < Power(width)
    ensures FromBigEndian(BigEndian(n, width)) == n
  {
    if width > 0 {
      BigEndianRoundTrip(n / 256, width - 1);
      var b := BigEndian(n, width);
      assert b[..|b| - 1] == BigEndian(n / 256, width - 1) && b[|b| - 1] == n % 256;
    }
  }

  predicate Fits(b: Bytes) { |b| < LIMIT }

  predicate AllFit(fields: seq<Bytes>) { forall i :: 0 <= i < |fields| ==> Fits(fields[i]) }

  function Field(value: Bytes): Bytes { BigEndian(|value|, 8) + value }

  function Encode(fields: seq<Bytes>): Bytes {
    if fields == [] then [] else Encode(fields[..|fields| - 1]) + Field(fields[|fields| - 1])
  }

  /** The loop that feeds the hash. */
  method Feed(fields: seq<Bytes>) returns (hashed: Bytes)
    ensures hashed == Encode(fields)
  {
    hashed := [];
    var i := 0;
    while i < |fields|
      invariant 0 <= i <= |fields| && hashed == Encode(fields[..i])
    {
      assert fields[..i + 1][..i] == fields[..i];
      hashed := hashed + BigEndian(|fields[i]|, 8);
      hashed := hashed + fields[i];
      i := i + 1;
    }
    assert fields[..i] == fields;
  }

  /** The same encoding from the front. */
  function EncodeFront(fields: seq<Bytes>): Bytes {
    if fields == [] then [] else Field(fields[0]) + EncodeFront(fields[1..])
  }

  lemma {:induction false} FrontAppend(fields: seq<Bytes>, last: Bytes)
    ensures EncodeFront(fields + [last]) == EncodeFront(fields) + Field(last)
  {
    if fields != [] {
      FrontAppend(fields[1..], last);
      assert (fields + [last])[1..] == fields[1..] + [last];
    }
  }

  lemma {:induction false} EncodeIsFront(fields: seq<Bytes>)
    ensures Encode(fields) == EncodeFront(fields)
  {
    if fields != [] {
      var front := fields[..|fields| - 1];
      EncodeIsFront(front);
      FrontAppend(front, fields[|fields| - 1]);
      assert fields == front + [fields[|fields| - 1]];
    }
  }

  /** Reading fields back. */
  function Decode(b: Bytes): Option<seq<Bytes>>
    decreases |b|
  {
    if b == [] then Some([])
    else if |b| < 8 then None
    else
      var n := FromBigEndian(b[..8]);
      if |b| < 8 + n then None
      else
        var rest := Decode(b[8 + n..]);
        if rest.None? then None else Some([b[8..8 + n]] + rest.value)
  }

  lemma {:induction false} LimitIsPower()
    ensures Power(8) == LIMIT
  {
    assert Power(4) == 0x1_0000_0000;
    assert Power(8) == 256 * (256 * (256 * (256 * Power(4))));
  }

  lemma {:induction false} DecodeField(value: Bytes, rest: Bytes)
    requires Fits(value) && Decode(rest).Some?
    ensures Decode(Field(value) + rest) == Some([value] + Decode(rest).value)
  {
    var b := Field(value) + rest;
    LimitIsPower();
    BigEndianRoundTrip(|value|, 8);
    assert b[..8] == BigEndian(|value|, 8);
    assert b[8..8 + |value|] == value && b[8 + |value|..] == rest;
  }

  /** The encoding can be read back, whatever the fields contain. */
  lemma {:induction false} RoundTrip(fields: seq<Bytes>)
    requires AllFit(fields)
    ensures Decode(Encode(fields)) == Some(fields)
  {
    EncodeIsFront(fields);
    FrontRoundTrip(fields);
  }

  lemma {:induction false} FrontRoundTrip(fields: seq<Bytes>)
    requires AllFit(fields)
    ensures Decode(EncodeFront(fields)) == Some(fields)
  {
    if fields != [] {
      FrontRoundTrip(fields[1..]);
      DecodeField(fields[0], EncodeFront(fields[1..]));
      assert fields == [fields[0]] + fields[1..];
    }
  }

  lemma {:induction false} EncodeInjective(a: seq<Bytes>, b: seq<Bytes>)
    requires AllFit(a) && AllFit(b) && Encode(a) == Encode(b)
    ensures a == b
  {
    RoundTrip(a);
    RoundTrip(b);
  }

  // ---------------------------------------------------------------- the three fingerprints

  datatype Header = Header(name: Bytes, value: Bytes)

  datatype HttpRequest = HttpRequest(verb: Bytes, url: Bytes, headers: seq<Header>, body: Bytes)

  function HeaderFields(hs: seq<Header>): (r: seq<Bytes>)
    ensures |r| == 2 * |hs|
  {
    if hs == [] then [] else [hs[0].name, hs[0].value] + HeaderFields(hs[1..])
  }

  function RequestFields(r: HttpRequest): seq<Bytes> { [r.verb, r.url] + HeaderFields(r.headers) + [r.body] }

  lemma {:induction false} HeadersInjective(a: seq<Header>, b: seq<Header>)
    requires HeaderFields(a) == HeaderFields(b)
    ensures a == b
  {
    assert |HeaderFields(a)| == 2 * |a| && |HeaderFields(b)| == 2 * |b|;
    if a != [] {
      assert HeaderFields(a)[0] == a[0].name && HeaderFields(a)[1] == a[0].value
        && HeaderFields(a)[2..] == HeaderFields(a[1..]);
      assert HeaderFields(b)[0] == b[0].name && HeaderFields(b)[1] == b[0].value
        && HeaderFields(b)[2..] == HeaderFields(b[1..]);
      HeadersInjective(a[1..], b[1..]);
      assert a == [a[0]] + a[1..] && b == [b[0]] + b[1..];
    }
  }

  lemma {:induction false} RequestFieldsInjective(a: HttpRequest, b: HttpRequest)
    requires RequestFields(a) == RequestFields(b)
    ensures a == b
  {
    var n, m := |a.headers|, |b.headers|;
    assert |RequestFields(a)| == 2 * n + 3 && |RequestFields(b)| == 2 * m + 3;
    assert RequestFields(a)[0] == a.verb && RequestFields(a)[1] == a.url && RequestFields(a)[2 * n + 2] == a.body;
    assert RequestFields(b)[0] == b.verb && RequestFields(b)[1] == b.url && RequestFields(b)[2 * m + 2] == b.body;
    assert RequestFields(a)[2..2 * n + 2] == HeaderFields(a.headers)
      && RequestFields(b)[2..2 * m + 2] == HeaderFields(b.headers);
    HeadersInjective(a.headers, b.headers);
  }

  datatype Binding = Binding(entry: Bytes, digest: Bytes)

  datatype PushRequest = PushRequest(repository: Bytes, branch: Bytes, base: Bytes, expected: Bytes, bundle: Bytes,
                                     binding: Binding)

  function PushFields(p: PushRequest): seq<Bytes> {
    [p.repository, p.branch, p.base, p.expected, p.bundle, p.binding.entry, p.binding.digest]
  }

  datatype Route = Route(name: Bytes, fake: Bytes, header: Bytes, prefix: Bytes, secret: Bytes)

  function RouteFields(r: Route): seq<Bytes> { [r.name, r.fake, r.header, r.prefix, r.secret] }

  type Digest = Bytes -> string

  ghost predicate Injective(digest: Digest) { forall a, b :: digest(a) == digest(b) ==> a == b }

  /** Equal review fingerprints: the same method, URL, header list and body. */
  lemma {:induction false} SameRequest(digest: Digest, a: HttpRequest, b: HttpRequest)
    requires Injective(digest) && AllFit(RequestFields(a)) && AllFit(RequestFields(b))
    ensures digest(Encode(RequestFields(a))) == digest(Encode(RequestFields(b))) <==> a == b
  {
    if digest(Encode(RequestFields(a))) == digest(Encode(RequestFields(b))) {
      EncodeInjective(RequestFields(a), RequestFields(b));
      RequestFieldsInjective(a, b);
    }
  }

  /** Equal push fingerprints: the same repository, branch, objects, bundle and credential binding. */
  lemma {:induction false} SamePush(digest: Digest, a: PushRequest, b: PushRequest)
    requires Injective(digest) && AllFit(PushFields(a)) && AllFit(PushFields(b))
    ensures digest(Encode(PushFields(a))) == digest(Encode(PushFields(b))) <==> a == b
  {
    if digest(Encode(PushFields(a))) == digest(Encode(PushFields(b))) {
      EncodeInjective(PushFields(a), PushFields(b));
      SamePushFields(a, b);
    }
  }

  lemma {:induction false} SamePushFields(a: PushRequest, b: PushRequest)
    requires PushFields(a) == PushFields(b)
    ensures a == b
  {
    var f, g := PushFields(a), PushFields(b);
    assert f[0] == g[0] && f[1] == g[1] && f[2] == g[2] && f[3] == g[3] && f[4] == g[4] && f[5] == g[5] && f[6] == g[6];
  }

  /** Equal binding digests: the same route and the same secret. */
  lemma {:induction false} SameRoute(digest: Digest, a: Route, b: Route)
    requires Injective(digest) && AllFit(RouteFields(a)) && AllFit(RouteFields(b))
    ensures digest(Encode(RouteFields(a))) == digest(Encode(RouteFields(b))) <==> a == b
  {
    if digest(Encode(RouteFields(a))) == digest(Encode(RouteFields(b))) {
      EncodeInjective(RouteFields(a), RouteFields(b));
      var f, g := RouteFields(a), RouteFields(b);
      assert f[0] == g[0] && f[1] == g[1] && f[2] == g[2] && f[3] == g[3] && f[4] == g[4];
    }
  }
}
