# bagsMap, modelled in Dafny

bagsMap ("Bags Town") shows the top tokens of the Bags launchpad as little
characters walking on a set of islands. The server fetches token statistics
from the upstream API, normalizes each record into a display entity, caches
the whole list and publishes a rotating batch of 25 of them; the browser
client receives the served document over an event stream (`/api/stream`)
and keeps one walking character per token.

This project models the non-rendering core of that pipeline:

- `common.dfy` (module `Common`): optional JSON fields, the JavaScript
  truthiness that the `||` defaults rely on, and `Array.prototype.find`.
- `normalizer.dfy` (module `Normalizer`): `normalizeCharacter`, the record
  normalizer, as a pure function over a record datatype whose fields may all
  be missing: defaults, lamports to SOL, the size tier, the speed factor and
  the creator and royalty attribution.
- `world_state.dfy` (module `WorldState`): the module-level state of
  `worldState.js` as the class `World` (`allTokensCache`, `lastFetchTime`,
  `rotationIndex`, `currentState`), with `updateWorldState`, the body of the
  rotation timer and `getWorldState`. The published batch is proved equal to
  a reference definition, `Window`, which reads `min(25, L)` entries
  cyclically from the cache.
- `bags_api.dfy` (module `BagsApi`): what `getTopTokensWithStats` and
  `getLatestPrice` make of an HTTP outcome (a parsed body or a thrown error).
- `server.dfy` (module `Server`): the 30-second freshness gate of
  `/api/world-state` as the class `Server` (`cachedState`, `lastUpdate`), the
  one-frame event stream of `/api/stream`, and the `PORT` default.
- `game.dfy` (module `Game`): the island test, the rank label and address
  abbreviation of the detail panel, `CustomCharacter` with its constructor,
  `pickNewTarget` and `destroy`, and the class `Client` whose
  `HandleWorldUpdate` reconciles the character map with each incoming
  document.

The clock, the upstream HTTP result, the outcome of an update that may
throw, JSON serialization and `Math.random` are inputs: `now` and
`finishedAt` parameters, an `HttpOutcome`, an `updateFails` flag, a
`stringify` function, and the oracle class `Rng`, whose n-th draw is
`draws(n)`.

Three behaviours of the code are modelled as written:

- A failed upstream fetch yields an empty array, and an empty array is
  accepted as a fresh list, so a failure empties the cache and the
  published batch instead of serving the previous tokens
  (`WorldState.FetchFailureEmptiesWorld`).
- The padding from the front of the cache only happens when the cache holds
  more than 25 tokens, so the published batch has `min(25, L)` entries, not
  always 25.
- The event-stream route writes one frame and closes; there is no registry
  of subscribers and no broadcast.

## Model

| member | source | states |
|---|---|---|
| Common.FindIndex | src/services/worldState.js:37 | The position found is the first element satisfying the predicate; none is found exactly when no element satisfies it. |
| Normalizer.SizeTier | src/services/worldState.js:71-76 | The tier is 3 exactly above 2000 SOL, 2 exactly in (200, 2000], 1 exactly at or below 200. |
| Normalizer.SizeTierMonotone | src/services/worldState.js:74-76 | More fees never give a smaller tier. |
| Normalizer.SizeTierBoundaries | src/services/worldState.js:74-76 | Exactly 200 and exactly 2000 SOL stay in the lower tier; just above each moves up. |
| Normalizer.ActivitySpeed | src/services/worldState.js:90 | The speed factor lies in [1, 3], is 3 for every swing of 20 points or more, and 1 plus a tenth of the swing below that. |
| Normalizer.ActivitySpeedSymmetric | src/services/worldState.js:90 | A fall and a rise of the same size give the same speed. |
| Normalizer.ActivitySpeedMonotone | src/services/worldState.js:90 | A larger swing never gives a smaller speed. |
| Normalizer.Displayed | src/services/worldState.js:39-43 | The username is the entry's username, else its Twitter name, else "Unknown", so it is never empty; the handle is the Twitter name, else the username; the picture is the entry's. |
| Normalizer.DisplayedFallback | src/services/worldState.js:59-63 | The username is the entry's username, else its Twitter name, with no "Unknown" default; the handle is the Twitter name, else the username; the picture is the entry's. |
| Normalizer.ResolveCreator | src/services/worldState.js:32-44 | The creator is the first entry flagged as creator, else the first entry, else the Unknown sentinel; its username is never empty. |
| Normalizer.ResolveRoyalty | src/services/worldState.js:46-65 | The receiver is the first paying entry whose username differs from the creator's; failing that the first paying entry, shown without defaults; failing that the None sentinel. |
| Normalizer.RoyaltyOfSoleCreator | src/services/worldState.js:48-64 | A sole paying creator with a username is found only by the fallback pass; without a username the first pass already picks it. |
| Normalizer.NormalizeCharacter | src/services/worldState.js:20-109 | No entity exactly when the token is missing or empty; otherwise the id is the token, the state is active, fees are lamports over 10^9, size and speed follow the tier and speed rules, creator and royalty are the ones the first-match rules resolve from the creators list (the sentinels without one), and a record without token info gets the documented defaults. |
| Normalizer.NormalizedInfoFields | src/services/worldState.js:23-28 | With token info present, a truthy symbol, name and icon pass through, a falsy symbol shows "???", a missing name shows the symbol, a missing icon is null, holders, market cap, USD price and price change each default to 0 on their own, and the 24h volume is buys plus sells. |
| Normalizer.NameFallsBackToSymbol | src/services/worldState.js:24-25 | A missing name shows the symbol, which is "???" when the symbol is missing too. |
| WorldState.NormalizeAll | src/services/worldState.js:125-127 | Normalizing a list never lengthens it. |
| WorldState.NormalizeAllSound | src/services/worldState.js:125-127 | Every cached entity is the normalization of some upstream record. |
| WorldState.NormalizeAllComplete | src/services/worldState.js:125-127 | Every record with a token is cached, and when every record has one the cache is as long as the upstream list. |
| WorldState.NormalizeAllAppend | src/services/worldState.js:125-127 | Normalization keeps the upstream order: it distributes over concatenation. |
| WorldState.ClampIndex | src/services/worldState.js:135-141 | With a non-empty cache the cursor's batch starts inside it: an in-range cursor is kept, an out-of-range one becomes 0; with an empty cache the cursor is kept as it is. |
| WorldState.AdvanceIndex | src/services/worldState.js:163-164 | The tick moves the cursor to the next batch, or back to 0 when that batch would start past the end. |
| WorldState.BatchStart | src/services/worldState.js:136-141 | The first published position lies inside a non-empty cache. |
| WorldState.Window | src/services/worldState.js:134-150 | The published batch has `min(25, L)` entries. |
| WorldState.SelectActiveTokens | src/services/worldState.js:133-150 | The slice-and-pad selection returns the reference window at the clamped cursor, together with that cursor. |
| WorldState.WindowIsSlice | src/services/worldState.js:144 | A batch that ends inside the cache is the window. |
| WorldState.WindowIsPadded | src/services/worldState.js:144-148 | A batch that runs off the end of a cache of more than 25 entries, padded from the front, is the window. |
| WorldState.WindowPositionsDistinct | src/services/worldState.js:134-150 | The window never shows a cache position twice. |
| WorldState.WindowOfSmallCache | src/services/worldState.js:134-150 | A cache of at most 25 tokens is published whole whatever the cursor. |
| WorldState.WindowWrapScenario | src/services/worldState.js:144-148 | With 30 cached tokens and cursor 1 the batch is entries 25..29 followed by entries 0..19. |
| WorldState.EveryTokenIsPublished | src/services/worldState.js:134-150 | Every cached token is published by the batch of its own cursor, at its offset within the batch, and that cursor is never reset. |
| WorldState.WindowFromCache | src/services/worldState.js:134-150 | Everything published comes from the cache. |
| WorldState.World.constructor | src/services/worldState.js:4-12 | The state starts with an empty cache, fetch time 0, cursor 0 and an empty document. |
| WorldState.World.UpdateWorldState | src/services/worldState.js:115-158 | A refresh happens exactly when the cache is empty or older than 300000 ms and the upstream result is an array (even empty), replacing cache and fetch time together; the cursor is reset when out of range; the document is the window at the cursor, stamped with the finish time; the state ends valid whatever the cursor was. |
| WorldState.World.RotationTick | src/services/worldState.js:161-168 | From any state: with an empty cache nothing changes; otherwise the cursor advances (wrapping to 0) and an update follows, leaving the state valid; when that un-awaited update throws, the cursor stays advanced (in range) while cache, fetch time and document are the old ones, and a later tick is still accepted. |
| WorldState.World.GetWorldState | src/services/worldState.js:170-172 | The document returned is the published one; in a valid state it is the window of the cache at the cursor, `min(25, L)` entities all from the cache. |
| WorldState.FetchFailureEmptiesWorld | src/services/worldState.js:119-131 | A due refresh that meets a failed upstream request (an empty array from the client) empties the cache and publishes an empty batch, with the fetch time set to now. |
| BagsApi.TopTokensWithStats | src/services/bagsApi.js:9-26 | The enveloped `response` array when there is one, else the body when it is an array, else the empty array; a thrown error gives the empty array. |
| BagsApi.TopTokensOrigin | src/services/bagsApi.js:13-21 | A non-empty result always comes from one of the two accepted response shapes. |
| BagsApi.EnvelopeRoundTrip | src/services/bagsApi.js:13-19 | An array wrapped in the envelope, whatever its other members, or sent bare, comes back unchanged. |
| BagsApi.LatestPrice | src/services/bagsApi.js:32-38 | The response body, or null when the request throws. |
| BagsApi.LatestPriceNullIsAmbiguous | src/services/bagsApi.js:32-38 | A failed request cannot be told apart from a null body. |
| Server.ListenPort | src/server.js:7 | The environment's port when set and non-empty, else 3000. |
| Server.SseFrame | src/server.js:41 | A frame is "data: ", the JSON text, and a blank line. |
| Server.ParseSseFrame | src/server.js:41 | A reader extracts a text only from a well-formed frame, and the frame of that text is the input. |
| Server.SseFrameRoundTrip | src/server.js:41 | Reading a frame gives back exactly the JSON text that was framed. |
| Server.Server.constructor | src/server.js:13-15 | Nothing is cached and the last update time is 0. |
| Server.Server.ServedDoc | src/server.js:28 | The cached document when there is one, else the world's published document, which in a valid world is the window of the cache at the cursor. |
| Server.Server.WorldStateRoute | src/server.js:18-29 | The world is updated exactly when nothing is cached or the cache is strictly older than 30 s and the update does not throw; then the result is cached and stamped with the request time and the world is valid; otherwise nothing changes; the reply is the served document. |
| Server.Server.StreamRoute | src/server.js:32-44 | Status 200 with the event-stream headers, exactly one frame with the served document, then the end of the response. |
| Server.RequestsWithinTtlShareDocument | src/server.js:18-29 | A second request within 30 s of the first update is answered from the cache with the same document. |
| Game.IsPointOnLand | public/js/game.js:871-878 | A point is land exactly when it lies strictly inside one of the five island discs. |
| Game.DiscBounded | public/js/game.js:875 | A point strictly inside a disc lies strictly inside its bounding box. |
| Game.LandIsBounded | public/js/game.js:57-62 | All land lies in the box (-500, 520) x (-500, 490). |
| Game.LandSamples | public/js/game.js:57-62 | The centre is land and the corner (400, 400) of the target square is water. |
| Game.ScatterInSquare | public/js/game.js:512-513 | A draw in [0, 1) scatters into the square of side `span` centred on the origin. |
| Game.LandBeyondDrawSquares | public/js/game.js:57-62 | Some land lies outside both the 800-wide target square and the 600-wide spawn square, so it is never drawn. |
| Game.RankLabel | public/js/game.js:81 | "HIGH" exactly for size 3, "MED" exactly for size 2, "LOW" for every other size. |
| Game.RankOfFees | public/js/game.js:81 | The rank of a normalized token reads its fee total against the 200 and 2000 SOL thresholds. |
| Game.AbbreviateAddress | public/js/game.js:179 | The shown address is the first four characters, "...", and the last four, with JavaScript's clamping for shorter ids. |
| Game.AbbreviateLongAddress | public/js/game.js:179 | An address of four or more characters shows as 11 characters: its first four, "...", its last four. |
| Game.AbbreviateShortAddress | public/js/game.js:179 | An address shorter than four characters is shown whole on both sides. |
| Game.SpeedMultiplier | public/js/game.js:907 | The walking factor is the record's speed when that is non-zero, and 1 when it is 0; it is never 0. |
| Game.NormalizedSpeedIsKept | public/js/game.js:907 | Every normalized token walks at its own speed factor. |
| Game.CustomCharacter.constructor | public/js/game.js:412-462 | A new character stands idle at its spawn point with its record's id and data, draws its idle time and base speed, and takes the speed factor and size from the record. |
| Game.CustomCharacter.Refresh | public/js/game.js:906-907 | The character shows the new record and walks at its speed factor. |
| Game.CustomCharacter.Destroy | public/js/game.js:589-592 | The character is released. |
| Game.CustomCharacter.PickNewTarget | public/js/game.js:507-524 | At most 20 points are drawn; the character ends moving towards the first drawn point on land, or idle with its target unchanged after 20 points in the water. |
| Game.DrawTarget | public/js/game.js:508-516 | Points are drawn in pairs until one is on land or 20 were drawn; every earlier point was water. |
| Game.SpawnPoint | public/js/game.js:910-916 | Between one and ten points are drawn; the last one is used, and it is on land unless all ten were water. |
| Game.Spawn | public/js/game.js:909-918 | A newly created idle character for the record, standing at the last point the spawn search drew (two to eleven draw pairs including the constructor's), which is land unless all ten points were water; every point drawn before it was water, so the search stops at the first land point. |
| Game.LastWithId | public/js/game.js:903-907 | The record a character shows carries its id, and no later record of the batch carries that id. |
| Game.LatestIsLastRecord | public/js/game.js:902-928 | After a pass over the batch exactly the incoming ids are shown, each with the last record that carries it. |
| Game.Client.constructor | public/js/game.js:26-30 | No scene, an empty document, an empty character map and no character filed yet. |
| Game.Client.CreateScene | public/js/game.js:218-219 | The scene is registered. |
| Game.Client.HandleWorldUpdate | public/js/game.js:898-936 | The scene stays registered or unregistered as it was, so every later message is handled the same way; without a scene nothing changes; with one, the document is kept, the map's ids are exactly the incoming ids, each showing the last record with its id, kept ids keep their character object, every character filed is new, and every dropped character is destroyed. |
| Game.Client.Reconcile | public/js/game.js:900-935 | The same outcome as `HandleWorldUpdate` once the scene exists. |
| Game.Client.Upsert | public/js/game.js:903-927 | One record overrides the view for its id, keeping every other character as it was; an id not on the map gets a newly created character. |
| Game.Client.RefreshFiled | public/js/game.js:905-907 | A known id keeps its character, which now shows the new record. |
| Game.Client.FileNew | public/js/game.js:908-926 | An unknown id gets a newly created idle character, which shows the record. |
| Game.Client.MergeBatch | public/js/game.js:902-928 | After the pass, the characters show the earlier view overridden by the batch, record by record. |
| Game.Client.PruneMissing | public/js/game.js:930-935 | Exactly the ids outside the incoming set are removed, and each removed character is destroyed; kept entries are untouched. |
| Game.Client.Discard | public/js/game.js:931-933 | The character filed under the id is destroyed and taken off the map; no other character changes. |

## Left out

- The axios requests and the URL they are sent to are not modelled: the
  outcome of each request is the input `HttpOutcome`.
- Express (CORS, static files, `listen`) is not modelled; `PORT` is kept as
  the environment's text or the number 3000, as `||` yields.
- `setInterval` scheduling and the interleaving of `updateWorldState` calls
  across its `await` are not modelled: each call is atomic, and
  `RotationTick` is the body of one timer callback.
- `Date.now` is the pair of inputs `now` (read at the start of a call) and
  `finishedAt` (read when the document is stamped). `WorldStateRoute`
  passes its own `now` to the update, so the route's clock reading and the
  update's first reading are taken to be the same instant.
- Server.Server.WorldStateRoute: an exception escaping `updateWorldState`
  (for example a `null` record in the upstream array) is the input
  `updateFails`; the model does not derive which records make it throw.
- `parseFloat`, NaN and IEEE floating point are not modelled: fees, prices
  and coordinates are reals, and `lifetimeFees` arrives already parsed.
- `null` and `undefined` are one value, `None`; a present `0` amount is
  treated like a missing one, as `|| 0` does. Fields of an unexpected JSON
  type (a numeric token, a string `royaltyBps`, a non-array `creators`) are
  not modelled.
- `JSON.stringify` is the parameter `stringify` of `StreamRoute`.
- Rendering and Phaser are not modelled: textures, the map, camera, input,
  `update(dt)` walking physics, colliders, `drawVisuals`,
  `getColorFromSymbol`, `formatCurrency` and the detail panel apart from
  the rank label and the address line. A character's display handles are
  reduced to its `alive` flag, and the `userData` copies of its record are
  not modelled.
- The client's transport (the event source and its status line) is not
  part of this model; `HandleWorldUpdate` receives the parsed document.
- Game.Client.HandleWorldUpdate: does not state, id by id, that the
  character of a newly listed id is a newly created object; it states that
  every character the call files is new and that kept ids keep theirs.
- Game.Client.Reconcile: the same gap as `HandleWorldUpdate`: the id-by-id
  freshness is stated for one record (`Upsert`, `FileNew`) but not carried
  through the pass over the batch.
- Game.Client.MergeBatch: the same gap, for the same reason.
- WorldState.World.RotationTick: an exception of the un-awaited update is
  the input `updateFails`, taken to happen before the update assigns
  anything (as a throwing record does); the unhandled rejection itself and
  which records throw are not modelled.
- Game.AbbreviateAddress: slices characters, while JavaScript's `slice`
  counts UTF-16 code units; the two agree on the ASCII mint addresses.
- Game.Client.constructor: the client's initial document `{ characters: [] }`
  has no `lastUpdated`; the model uses 0.
