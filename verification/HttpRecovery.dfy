/** Continuing an HTTP response with range requests, and checking the digest of
    what a continued transfer delivered. */
module HttpRecovery {
  import opened Records
  import opened Recovery

  const PARTIAL_CONTENT := 206

  /** A `Content-Range` interval; both ends are inclusive. */
  datatype Interval = Interval(start: int, end: int, total: int)

  predicate ValidInterval(i: Interval) {
    0 <= i.start <= i.end < i.total
  }

  function Length(i: Interval): int { i.end - i.start + 1 }

  /** The headers the recovery reads; a range that did not parse is `None`. */
  datatype Headers = Headers(
    encoding: string, etag: string, rangePresent: bool, range: Option<Interval>,
    lengthPresent: bool, length: Option<int>)

  predicate ValidHeaders(h: Headers) {
    h.range.Some? ==> ValidInterval(h.range.value)
  }

  /** The response that the transfer started with. */
  datatype Identity = Identity(interval: Interval, etag: string)

  predicate StrongETag(value: string) {
    |value| >= 2 && value[0] == '"' && value[|value| - 1] == '"'
  }

  /** A strong validator is anything between two quotes. */
  lemma StrongETagIff(value: string)
    ensures StrongETag(value) <==> exists inner: string :: value == "\"" + inner + "\""
  {
    if StrongETag(value) {
      assert value == "\"" + value[1..|value| - 1] + "\"";
    }
  }

  predicate IdentityEncoding(encoding: string) {
    encoding == "" || Lower(encoding) == "identity"
  }

  function Lower(s: string): (r: string)
    ensures |r| == |s|
    ensures forall i :: 0 <= i < |s| ==> r[i] == if 'A' <= s[i] <= 'Z' then (s[i] as int + 32) as char else s[i]
  {
    if s == "" then ""
    else [if 'A' <= s[0] <= 'Z' then (s[0] as int + 32) as char else s[0]] + Lower(s[1..])
  }

  /** No encoding, or the identity one in any mix of cases. */
  lemma IdentityEncodingIff(s: string)
    ensures IdentityEncoding(s) <==>
      s == "" || (|s| == 8 && forall i :: 0 <= i < 8 ==> s[i] == "identity"[i] || s[i] == "IDENTITY"[i])
  {
    if |s| == 8 {
      assert forall i :: 0 <= i < 8 ==>
        (Lower(s)[i] == "identity"[i] <==> s[i] == "identity"[i] || s[i] == "IDENTITY"[i]);
    }
  }

  /** A recoverable response has a strong validator or a digest, and a range only
      with a validator. */
  function RecoveryIdentityFrom(h: Headers, digestKnown: bool): (r: Option<Identity>)
    requires ValidHeaders(h)
    ensures r.Some? ==> ValidInterval(r.value.interval) && r.value.etag == h.etag
    ensures r.Some? ==> IdentityEncoding(h.encoding) && (StrongETag(h.etag) || digestKnown)
    ensures r.Some? && h.rangePresent ==> StrongETag(h.etag) && h.range.Some? && r.value.interval == h.range.value
    ensures r.Some? && !h.rangePresent ==>
      r.value.interval.start == 0 && Length(r.value.interval) == r.value.interval.total
  {
    if !IdentityEncoding(h.encoding) then None
    else if !StrongETag(h.etag) && !digestKnown then None
    else if h.rangePresent then
      if !StrongETag(h.etag) || h.range.None? then None else Some(Identity(h.range.value, h.etag))
    else if h.length.None? || h.length.value <= 0 then None
    else Some(Identity(Interval(0, h.length.value - 1, h.length.value), h.etag))
  }

  /** `Range: bytes=first-last` */
  datatype RangeRequest = RangeRequest(first: int, last: int, ifRange: Option<string>)

  function ContinuationRequest(id: Identity, consumed: int): RangeRequest {
    RangeRequest(id.interval.start + consumed, id.interval.end, if StrongETag(id.etag) then Some(id.etag) else None)
  }

  datatype Response = Response(status: int, headers: Headers, body: Option<seq<Byte>>)

  predicate ContinuationLengthAgrees(h: Headers, expected: int) {
    IdentityEncoding(h.encoding) && (h.lengthPresent ==> h.length == Some(expected))
  }

  predicate Validates(id: Identity, r: Response, consumed: int) {
    && r.status == PARTIAL_CONTENT
    && r.headers.range.Some?
    && r.headers.range.value == Interval(id.interval.start + consumed, id.interval.end, id.interval.total)
    && (StrongETag(id.etag) ==> r.headers.etag == id.etag)
    && ContinuationLengthAgrees(r.headers, Length(r.headers.range.value))
  }

  /** What one attempt gives the reader: only a validated body. */
  function OpenContinuation(id: Identity, consumed: nat, r: Option<Response>): Opened {
    if r.None? || r.value.body.None? then Refused(Fatal)
    else if !Validates(id, r.value, consumed) then Refused(Fatal)
    else Body(r.value.body.value)
  }

  // ---------------------------------------------------------------------------
  // What a continuation requests and accepts

  /** The bytes of the original response. */
  ghost function Original(resource: seq<Byte>, id: Identity): seq<Byte>
    requires ValidInterval(id.interval) && |resource| == id.interval.total
  {
    resource[id.interval.start..id.interval.end + 1]
  }

  /** While bytes are missing, the request is a nonempty range of the resource
      that holds exactly them. */
  lemma RequestIsRemainder(resource: seq<Byte>, id: Identity, consumed: nat)
    requires ValidInterval(id.interval) && |resource| == id.interval.total && consumed < Length(id.interval)
    ensures var q := ContinuationRequest(id, consumed);
      && 0 <= q.first <= q.last < id.interval.total && (q.ifRange == Some(id.etag) <==> StrongETag(id.etag))
      && resource[q.first..q.last + 1] == Original(resource, id)[consumed..]
      && Original(resource, id) == Original(resource, id)[..consumed] + resource[q.first..q.last + 1]
  {
    var q := ContinuationRequest(id, consumed);
    assert Original(resource, id) == Original(resource, id)[..consumed] + Original(resource, id)[consumed..];
  }

  /** Whatever a server sends: an answer that is read announced exactly the missing
      bytes of a representation of the same length, no other number of them, no
      encoding, and the validator that the transfer started with. */
  lemma AcceptedAnnounces(resource: seq<Byte>, id: Identity, consumed: nat, r: Option<Response>)
    requires ValidInterval(id.interval) && |resource| == id.interval.total && consumed < Length(id.interval)
    requires OpenContinuation(id, consumed, r).Body?
    ensures r.Some? && r.value.status == 206 && r.value.body == Some(OpenContinuation(id, consumed, r).data)
    ensures var h := r.value.headers; var missing := Original(resource, id)[consumed..];
      && h.range.Some? && ValidInterval(h.range.value) && h.range.value.total == |resource|
      && resource[h.range.value.start..h.range.value.end + 1] == missing
      && (h.lengthPresent ==> h.length == Some(|missing|)) && IdentityEncoding(h.encoding)
      && (StrongETag(id.etag) ==> h.etag == id.etag)
  {
    var h := r.value.headers;
    assert resource[h.range.value.start..h.range.value.end + 1] == Original(resource, id)[consumed..];
  }

  /** A server that sends the bytes its `Content-Range` announces. */
  ghost predicate Serves(resource: seq<Byte>, r: Response) {
    PartialOf(resource, r) ==>
      forall i :: 0 <= i < |r.body.value| && i < Length(r.headers.range.value) ==>
        r.body.value[i] == resource[r.headers.range.value.start + i]
  }

  ghost predicate PartialOf(resource: seq<Byte>, r: Response) {
    && r.status == PARTIAL_CONTENT && r.body.Some? && r.headers.range.Some?
    && ValidInterval(r.headers.range.value) && r.headers.range.value.total == |resource|
  }

  /** A validated continuation carries on exactly where the reader stopped. */
  lemma ContinuationContinues(resource: seq<Byte>, id: Identity, consumed: nat, r: Option<Response>)
    requires ValidInterval(id.interval) && |resource| == id.interval.total
    requires r.Some? ==> Serves(resource, r.value)
    requires OpenContinuation(id, consumed, r).Body?
    ensures Continues(Original(resource, id), consumed, OpenContinuation(id, consumed, r).data)
  {
    var data := OpenContinuation(id, consumed, r).data;
    forall i | 0 <= i < |data| && consumed + i < |Original(resource, id)|
      ensures data[i] == Original(resource, id)[consumed + i]
    {
      assert PartialOf(resource, r.value);
      assert data[i] == resource[r.value.headers.range.value.start + i];
    }
  }

  /** An opener that validates the answers of such a server is honest, so a
      reader over it delivers a prefix of the original bytes. */
  lemma ValidatingOpenerIsHonest(resource: seq<Byte>, id: Identity, answers: (nat, nat) -> Option<Response>,
                                 open: Opener)
    requires ValidInterval(id.interval) && |resource| == id.interval.total
    requires forall n: nat, offset: nat :: answers(n, offset).Some? ==> Serves(resource, answers(n, offset).value)
    requires forall n: nat, offset: nat :: open(n, offset) == OpenContinuation(id, offset, answers(n, offset))
    ensures HonestOpener(Original(resource, id), open)
  {
    forall n: nat, offset: nat | open(n, offset).Body?
      ensures Continues(Original(resource, id), offset, open(n, offset).data)
    {
      ContinuationContinues(resource, id, offset, answers(n, offset));
    }
  }

  /** A server that has this representation now and answers range requests as
      sections 13.1.5 and 14.2 of RFC 9110 say: the whole representation if the
      request's validator is another one, else the range, clipped to what there is. */
  function RangeServer(current: seq<Byte>, etag: string, q: RangeRequest): (r: Response)
    ensures ValidHeaders(r.headers) && Serves(current, r)
  {
    if q.ifRange.Some? && q.ifRange.value != etag then
      Response(200, Headers("", etag, false, None, true, Some(|current|)), Some(current))
    else if 0 <= q.first <= q.last && q.first < |current| then
      var last := if q.last < |current| then q.last else |current| - 1;
      var range := Interval(q.first, last, |current|);
      Response(PARTIAL_CONTENT, Headers("", etag, true, Some(range), true, Some(Length(range))),
               Some(current[q.first..last + 1]))
    else
      Response(416, Headers("", etag, false, None, true, Some(0)), None)
  }

  /** What such a server sends first can be continued if and only if, for the whole of a
      representation, that is not empty and has a strong validator or a known digest,
      and, for a range of it, it has a strong validator; and then the transfer is over
      exactly the bytes that were sent. */
  lemma ServedIsRecoverableIff(current: seq<Byte>, etag: string, q: RangeRequest, digestKnown: bool)
    requires RangeServer(current, etag, q).body.Some?
    ensures var first := RangeServer(current, etag, q);
      var id := RecoveryIdentityFrom(first.headers, digestKnown);
      && (id.Some? <==> if first.status == 206 then StrongETag(etag)
                        else |current| > 0 && (StrongETag(etag) || digestKnown))
      && (id.Some? ==> id.value.etag == etag && id.value.interval.total == |current|)
      && (id.Some? ==> Original(current, id.value) == first.body.value)
  {
    assert IdentityEncoding("");
    var id := RecoveryIdentityFrom(RangeServer(current, etag, q).headers, digestKnown);
    if id.Some? && RangeServer(current, etag, q).status != 206 {
      assert current[0..|current|] == current;
    }
  }

  /** The answer of such a server to the continuation request is read if and only if
      the representation has the length it had and, where there is a strong validator,
      that validator; and then it is exactly the remainder of what the server has. */
  lemma RangeServerAcceptedIff(id: Identity, consumed: nat, current: seq<Byte>, etag: string)
    requires ValidInterval(id.interval) && consumed < Length(id.interval)
    ensures var answer :=
      OpenContinuation(id, consumed, Some(RangeServer(current, etag, ContinuationRequest(id, consumed))));
      && (answer.Body? <==> |current| == id.interval.total && (StrongETag(id.etag) ==> etag == id.etag))
      && (answer.Body? ==> answer.data == Original(current, id)[consumed..])
  {
    var q := ContinuationRequest(id, consumed);
    assert |current| == id.interval.total ==> current[q.first..q.last + 1] == Original(current, id)[consumed..];
    assert IdentityEncoding("");
  }

  // ---------------------------------------------------------------------------
  // The stored object store as the origin

  /** Absolute bounds of a stored object's response, and its length. */
  datatype Stored = Stored(start: int, end: int, size: int)

  /** `objectResponseBounds` after `validateObjectResponse`: a range response has
      the range's length, a whole one has the object's. */
  function ObjectBounds(range: Option<(int, int)>, requested: int, infoSize: int): (r: Option<Stored>)
    ensures r.Some? <==>
      && infoSize >= 0
      && (range.None? ==> requested < 0 || requested == infoSize)
      && (range.Some? ==>
          infoSize == if 0 <= range.value.0 <= range.value.1 then range.value.1 - range.value.0 + 1 else 0)
    ensures r.Some? ==> r.value.size == infoSize && r.value.start == if range.Some? then range.value.0 else 0
    ensures r.Some? && r.value.size > 0 ==> r.value.end - r.value.start + 1 == r.value.size
  {
    if infoSize < 0 then None
    else if range.Some? then
      var length := if range.value.0 < 0 || range.value.1 < range.value.0 then 0 else range.value.1 - range.value.0 + 1;
      if infoSize != length then None else Some(Stored(range.value.0, range.value.1, infoSize))
    else if requested >= 0 && infoSize != requested then None
    else Some(Stored(0, infoSize - 1, infoSize))
  }

  /** The continuation of a stored object asks for exactly the missing bytes. */
  lemma ObjectContinuationIsRemainder(range: Option<(int, int)>, requested: int, infoSize: int, consumed: nat)
    requires ObjectBounds(range, requested, infoSize).Some? && consumed < infoSize
    ensures var b := ObjectBounds(range, requested, infoSize).value;
      0 <= b.start <= b.start + consumed <= b.end && b.end - (b.start + consumed) + 1 == b.size - consumed
  {
  }

  // ---------------------------------------------------------------------------
  // The digest of a continued transfer

  /** The outcome of checking, beside the reader's own errors. */
  datatype Outcome = Plain(err: Option<Error>) | Mismatch

  class DigestBody {
    const inner: RecoveryBody
    const verified: seq<Byte> -> bool
    const size: nat
    var hashed: seq<Byte>
    var terminal: bool
    ghost var handed: seq<Byte>

    ghost predicate Valid()
      reads this, inner
    {
      && inner.Valid() && size == inner.size > 0
      && hashed == inner.delivered
      && (!terminal ==> handed == hashed)
      && handed <= hashed
      && (terminal ==> |handed| < size)
      && (|handed| == size && inner.recovered ==> verified(handed))
    }

    constructor (body: RecoveryBody, verifier: seq<Byte> -> bool)
      requires body.Valid() && body.size > 0 && body.delivered == []
      ensures Valid() && inner == body && verified == verifier && handed == [] && !terminal
    {
      inner, verified, size := body, verifier, body.size;
      hashed, terminal, handed := [], false, [];
    }

    /** Hands over what the reader delivers, except that a continued transfer
        whose digest is wrong never hands over its last bytes, now or later. */
    method Read(capacity: nat) returns (n: nat, chunk: seq<Byte>, r: Outcome)
      requires Valid()
      modifies this, inner
      ensures Valid() && |chunk| == n <= capacity && handed == old(handed) + chunk
      ensures |handed| == size && inner.recovered ==> verified(handed)
      ensures old(terminal) ==> terminal && r == Mismatch && n == 0
      ensures r == Mismatch ==> terminal && |handed| < size
      ensures capacity > 0 && !old(terminal) && !inner.canceled ==>
        (r == Plain(Some(EOF)) && |handed| < size <==> inner.EndsEarly())
      ensures capacity > 0 && !old(terminal) && old(inner.Refusing()) && !inner.canceled ==>
        r == Plain(Some(EOF)) && |handed| < size
    {
      if terminal { return 0, [], Mismatch; }
      var err;
      n, chunk, err := inner.Read(capacity);
      hashed := hashed + chunk;
      if |hashed| == size && inner.recovered && !verified(hashed) {
        terminal := true;
        assert handed + [] == handed;
        return 0, [], Mismatch;
      }
      handed := handed + chunk;
      return n, chunk, Plain(ReadResult(err));
    }
  }
}
