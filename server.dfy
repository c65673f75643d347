/** The HTTP layer of `server.js`: a 30-second freshness gate in front of
    `updateWorldState`, the JSON route that serves the gated document, the
    event-stream route that writes one frame and closes, and the port
    setting. Express, CORS, static files and `listen` are not modelled;
    the request time and the outcome of the update are inputs. */
module Server {
  import opened Common
  import opened Normalizer
  import opened WorldState

  /** How long a document served by the JSON route is reused. */
  const CacheTtlMs: int := 30000
  /** The port used when the environment sets none. */
  const DefaultPort: nat := 3000

  /** `process.env.PORT || 3000`: the environment's text, or the number 3000. */
  datatype PortSetting = FromEnvironment(text: string) | Fallback(number: nat)

  function ListenPort(env: Option<string>): (p: PortSetting)
    ensures p.Fallback? <==> !Truthy(env)
    ensures p.Fallback? ==> p.number == DefaultPort
    ensures p.FromEnvironment? ==> Some(p.text) == env
  {
    if Truthy(env) then FromEnvironment(env.value) else Fallback(DefaultPort)
  }

  // ------------------------------------------------------------ framing

  const FramePrefix: string := "data: "
  const FrameSuffix: string := "\n\n"

  /** One server-sent event carrying a JSON text. */
  function SseFrame(json: string): (frame: string)
    ensures |frame| == |FramePrefix| + |json| + |FrameSuffix|
    ensures frame[..|FramePrefix|] == FramePrefix
    ensures frame[|FramePrefix|..|frame| - |FrameSuffix|] == json
    ensures frame[|frame| - |FrameSuffix|..] == FrameSuffix
  {
    FramePrefix + json + FrameSuffix
  }

  /** What an event-stream reader extracts from one frame. */
  function ParseSseFrame(frame: string): (json: Option<string>)
    ensures json.Some? ==> SseFrame(json.value) == frame
    ensures json.None? ==>
      (|frame| < |FramePrefix| + |FrameSuffix| ||
       frame[..|FramePrefix|] != FramePrefix || frame[|frame| - |FrameSuffix|..] != FrameSuffix)
  {
    var n := |frame|;
    if n >= |FramePrefix| + |FrameSuffix| && frame[..|FramePrefix|] == FramePrefix && frame[n - |FrameSuffix|..] == FrameSuffix then
      var json := frame[|FramePrefix|..n - |FrameSuffix|];
      assert frame == frame[..|FramePrefix|] + json + frame[n - |FrameSuffix|..];
      Some(json)
    else None
  }

  /** A reader recovers exactly the JSON text the server framed. */
  lemma SseFrameRoundTrip(json: string)
    ensures ParseSseFrame(SseFrame(json)) == Some(json)
  {
    var f := SseFrame(json);
    assert f[..|FramePrefix|] == FramePrefix;
    assert f[|f| - |FrameSuffix|..] == FrameSuffix;
  }

  /** The status, headers and body chunks of an event-stream response. */
  datatype StreamReply = StreamReply(status: nat, headers: map<string, string>, writes: seq<string>, ended: bool)

  const StreamHeaders: map<string, string> :=
    map["Content-Type" := "text/event-stream", "Connection" := "keep-alive", "Cache-Control" := "no-cache"]

  /** The gate is open (an update is due) when nothing is cached or the cached
      document is strictly older than the TTL. */
  predicate Stale(cachedState: Option<StateDoc>, lastUpdate: int, now: int) {
    cachedState.None? || now - lastUpdate > CacheTtlMs
  }

  // ------------------------------------------------------------- routes

  /** The module-level `cachedState` and `lastUpdate` of `server.js`, in
      front of the shared world state. */
  class Server {
    const world: World
    var cachedState: Option<StateDoc>
    var lastUpdate: int

    constructor (world: World)
      ensures this.world == world && cachedState == None && lastUpdate == 0
    {
      this.world := world;
      cachedState := None;
      lastUpdate := 0;
    }

    /** `cachedState || getWorldState()`: the document both routes serve. */
    function ServedDoc(): (d: StateDoc)
      reads this, world
      ensures cachedState.Some? ==> d == cachedState.value
      ensures cachedState.None? ==> d == world.currentState
      ensures cachedState.None? && world.Valid() ==>
        d.characters == Window(world.allTokensCache, world.rotationIndex) &&
        |d.characters| == Min(BatchSize, |world.allTokensCache|)
    {
      if cachedState.Some? then cachedState.value else world.GetWorldState()
    }

    /** `GET /api/world-state` at time `now`. When the gate is open the world
        is updated (with `topTokens` and `finishedAt` as in
        `World.UpdateWorldState`) unless that update fails (`updateFails`),
        in which case nothing changes. */
    method WorldStateRoute(now: int, topTokens: Option<seq<RawToken>>, finishedAt: int, updateFails: bool)
      returns (body: StateDoc)
      modifies this, world
      ensures old(world.Valid()) ==> world.Valid()
      ensures body == ServedDoc()
      ensures !Stale(old(cachedState), old(lastUpdate), now) || updateFails ==>
        cachedState == old(cachedState) && lastUpdate == old(lastUpdate) && unchanged(world)
      ensures Stale(old(cachedState), old(lastUpdate), now) && !updateFails ==>
        world.Valid() && world.UpdatedBy(now, topTokens, finishedAt) &&
        cachedState == Some(world.currentState) && lastUpdate == now
    {
      if cachedState.None? || now - lastUpdate > CacheTtlMs {
        if !updateFails {
          var st := world.UpdateWorldState(now, topTokens, finishedAt);
          cachedState := Some(st);
          lastUpdate := now;
        }
      }
      body := ServedDoc();
    }

    /** `GET /api/stream`: status 200 with event-stream headers, exactly one
        frame holding the served document as serialized by `stringify`, then
        the end of the response. Nothing is updated. */
    method StreamRoute(stringify: StateDoc -> string) returns (reply: StreamReply)
      ensures reply.status == 200 && reply.headers == StreamHeaders
      ensures reply.writes == [SseFrame(stringify(ServedDoc()))] && reply.ended
    {
      var data := SseFrame(stringify(ServedDoc()));
      reply := StreamReply(200, StreamHeaders, [data], true);
    }
  }

  /** The first request after start-up updates the world; a second one
      within the TTL is answered from the cache with nothing updated, so both
      see the same document. */
  method RequestsWithinTtlShareDocument(s: Server, t0: int, t1: int, topTokens: Option<seq<RawToken>>, finishedAt: int)
    returns (first: StateDoc, second: StateDoc)
    requires s.cachedState.None? && t0 <= t1 <= t0 + CacheTtlMs
    modifies s, s.world
    ensures first == second == s.world.currentState && s.lastUpdate == t0
  {
    first := s.WorldStateRoute(t0, topTokens, finishedAt, false);
    second := s.WorldStateRoute(t1, topTokens, finishedAt, false);
  }
}
