/** The upstream client: what the two request helpers make of an HTTP
    outcome. The request itself is an input; a response body is a JSON
    value whose array elements are left opaque (`R`), because the client
    returns them untouched. */
module BagsApi {

  /** A JSON value; array elements are of the opaque element type `R`. */
  datatype Json<R> =
    | JNull
    | JBool(b: bool)
    | JNum(n: real)
    | JStr(s: string)
    | JArr(items: seq<R>)
    | JObj(fields: map<string, Json<R>>)

  /** What the HTTP call produced: a parsed body, or a thrown error. */
  datatype HttpOutcome<R> = Responded(data: Json<R>) | Threw

  /** `response.data.response`, when the body is an object whose `response`
      member is an array. */
  predicate HasEnvelope<R>(data: Json<R>) {
    data.JObj? && "response" in data.fields && data.fields["response"].JArr?
  }

  /** `getTopTokensWithStats`: the enveloped array if there is one, else the
      body itself if it is an array, else the empty array; a thrown error
      also gives the empty array, so the caller always receives an array. */
  function TopTokensWithStats<R>(o: HttpOutcome<R>): (tokens: seq<R>)
    ensures o.Threw? ==> tokens == []
    ensures o.Responded? && HasEnvelope(o.data) ==> tokens == o.data.fields["response"].items
    ensures o.Responded? && o.data.JArr? ==> tokens == o.data.items
    ensures o.Responded? && !HasEnvelope(o.data) && !o.data.JArr? ==> tokens == []
  {
    match o
    case Threw => []
    case Responded(data) =>
      if HasEnvelope(data) then data.fields["response"].items
      else if data.JArr? then data.items
      else []  // an unexpected shape (for a null body, reading its keys throws and is caught)
  }

  /** Whatever the client returns was delivered by the upstream service:
      a non-empty result comes out of one of the two accepted shapes. */
  lemma TopTokensOrigin<R>(o: HttpOutcome<R>)
    ensures TopTokensWithStats(o) != [] ==>
      o.Responded? && (HasEnvelope(o.data) || o.data.JArr?)
  {
  }

  /** The envelope `{ success, response: [...] }` round-trips whatever the
      other members of the envelope are, and so does a bare array. */
  lemma EnvelopeRoundTrip<R>(items: seq<R>, others: map<string, Json<R>>)
    ensures TopTokensWithStats(Responded(JObj(others["response" := JArr(items)]))) == items
    ensures TopTokensWithStats(Responded(JArr(items))) == items
  {
  }

  /** `getLatestPrice`: the response body, or `null` on any error. */
  function LatestPrice<R>(o: HttpOutcome<R>): (body: Json<R>)
    ensures o.Threw? ==> body == JNull
    ensures o.Responded? ==> body == o.data
  {
    if o.Threw? then JNull else o.data
  }

  /** A failed request cannot be told apart from a `null` body. */
  lemma LatestPriceNullIsAmbiguous<R>()
    ensures LatestPrice<R>(Threw) == LatestPrice<R>(Responded(JNull)) == JNull
  {
  }
}
