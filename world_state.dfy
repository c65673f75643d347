/** The rotating cache and the published state of `worldState.js`: the full
    normalized token list, the time it was fetched, the rotation cursor and
    the currently published batch. The clock and the upstream result are
    inputs of each call. */
module WorldState {
  import opened Common
  import opened Normalizer
  import BagsApi

  /** Tokens published at a time. */
  const BatchSize: nat := 25
  /** The cache is refetched once it is older than this (5 minutes). */
  const FetchTtlMs: int := 300000

  /** The published document `{ characters, lastUpdated }`. */
  datatype StateDoc = StateDoc(characters: seq<Entity>, lastUpdated: int)

  // ------------------------------------------------------- normalize all

  /** `records.map(normalizeCharacter).filter(c => c !== null)`. */
  function NormalizeAll(rs: seq<RawToken>): (es: seq<Entity>)
    ensures |es| <= |rs|
  {
    if rs == [] then []
    else
      var rest := NormalizeAll(rs[1..]);
      match NormalizeCharacter(rs[0])
      case None => rest
      case Some(e) => [e] + rest
  }

  /** Every published character is the normalization of some record. */
  lemma {:induction false} NormalizeAllSound(rs: seq<RawToken>)
    ensures forall e :: e in NormalizeAll(rs) ==> exists r :: r in rs && NormalizeCharacter(r) == Some(e)
  {
    if rs != [] {
      NormalizeAllSound(rs[1..]);
      assert forall r :: r in rs[1..] ==> r in rs;
    }
  }

  /** Every record with a token is published, and when all records have
      one, nothing is dropped. */
  lemma {:induction false} NormalizeAllComplete(rs: seq<RawToken>)
    ensures forall j :: 0 <= j < |rs| && Truthy(rs[j].token) ==> NormalizeCharacter(rs[j]).value in NormalizeAll(rs)
    ensures (forall j :: 0 <= j < |rs| ==> Truthy(rs[j].token)) ==> |NormalizeAll(rs)| == |rs|
  {
    if rs != [] {
      NormalizeAllComplete(rs[1..]);
      assert forall j :: 1 <= j < |rs| ==> rs[j] == rs[1..][j - 1];
    }
  }

  /** Normalization keeps the upstream order: it distributes over
      concatenation. */
  lemma {:induction false} NormalizeAllAppend(a: seq<RawToken>, b: seq<RawToken>)
    ensures NormalizeAll(a + b) == NormalizeAll(a) + NormalizeAll(b)
  {
    if a == [] {
      assert a + b == b;
    } else {
      assert (a + b)[1..] == a[1..] + b;
      NormalizeAllAppend(a[1..], b);
    }
  }

  // -------------------------------------------------------------- window

  /** A refresh is due when the cache is empty or strictly older than the TTL. */
  predicate NeedsRefresh(cacheLen: nat, lastFetchTime: int, now: int) {
    cacheLen == 0 || now - lastFetchTime > FetchTtlMs
  }

  /** The rotation cursor after the "out of range" reset of a batch selection. */
  function ClampIndex(rotationIndex: nat, cacheLen: nat): (index: nat)
    ensures cacheLen > 0 ==> index * BatchSize < cacheLen
    ensures rotationIndex * BatchSize < cacheLen ==> index == rotationIndex
    ensures index == rotationIndex || index == 0
    ensures cacheLen == 0 ==> index == rotationIndex
  {
    if cacheLen > 0 && rotationIndex * BatchSize >= cacheLen then 0 else rotationIndex
  }

  /** The rotation cursor after a rotation tick's increment and reset. */
  function AdvanceIndex(rotationIndex: nat, cacheLen: nat): (next: nat)
    ensures next * BatchSize < cacheLen || next == 0
    ensures (rotationIndex + 1) * BatchSize < cacheLen ==> next == rotationIndex + 1
    ensures next == rotationIndex + 1 || next == 0
  {
    if (rotationIndex + 1) * BatchSize >= cacheLen then 0 else rotationIndex + 1
  }

  /** The first cache position of the published batch. */
  function BatchStart(cacheLen: nat, rotationIndex: nat): (start: nat)
    ensures cacheLen > 0 ==> start < cacheLen
  {
    if rotationIndex * BatchSize < cacheLen then rotationIndex * BatchSize else 0
  }

  /** The published window, as a reference definition: `min(25, L)` entries
      read cyclically from the cache, starting at the batch start. */
  function Window(cache: seq<Entity>, rotationIndex: nat): (w: seq<Entity>)
    ensures |w| == Min(BatchSize, |cache|)
  {
    var n := Min(BatchSize, |cache|);
    var start := BatchStart(|cache|, rotationIndex);
    seq(n, i requires 0 <= i < n => cache[(start + i) % |cache|])
  }

  lemma ModOnce(p: nat, n: nat)
    requires 0 < n <= p < 2 * n
    ensures p % n == p - n
  {
    var q, r := p / n, p % n;
    assert p == q * n + r && 0 <= r < n;
  }

  lemma ModBelow(p: nat, n: nat)
    requires p < n
    ensures p % n == p
  {
  }

  /** The batch selection of `updateWorldState`, with JavaScript's clamping
      `slice` written out: the batch from the cursor, padded from the front of
      the cache only when the cache holds more than one batch. An
      out-of-range cursor is reset to 0. */
  method SelectActiveTokens(cache: seq<Entity>, rotationIndex: nat) returns (active: seq<Entity>, index: nat)
    ensures index == ClampIndex(rotationIndex, |cache|)
    ensures active == Window(cache, index)
  {
    active := [];
    index := rotationIndex;
    if |cache| > 0 {
      var start := index * BatchSize;
      var end := start + BatchSize;
      if start >= |cache| {
        index := 0;
        active := cache[..Min(BatchSize, |cache|)];
        WindowIsSlice(cache, 0);
      } else {
        BatchFits(|cache|, index);
        active := cache[start..Min(end, |cache|)];
        if |active| < BatchSize && |cache| > BatchSize {
          active := active + cache[..BatchSize - |active|];
          WindowIsPadded(cache, index);
        } else {
          WindowIsSlice(cache, index);
        }
      }
    }
  }

  /** Within the cache, a batch either ends inside it or runs off the end
      of a cache of more than one batch. */
  lemma BatchFits(cacheLen: nat, index: nat)
    requires index * BatchSize < cacheLen
    ensures index * BatchSize + Min(BatchSize, cacheLen) <= cacheLen
         || BatchSize < cacheLen < index * BatchSize + BatchSize
  {
    if cacheLen <= BatchSize {
      assert index == 0;
    }
  }

  /** A batch that fits before the end of the cache is the window. */
  lemma WindowIsSlice(cache: seq<Entity>, index: nat)
    requires index * BatchSize + Min(BatchSize, |cache|) <= |cache|
    ensures cache[index * BatchSize..index * BatchSize + Min(BatchSize, |cache|)] == Window(cache, index)
  {
    var n, L, s := Min(BatchSize, |cache|), |cache|, index * BatchSize;
    var w := Window(cache, index);
    if n > 0 {
      assert BatchStart(L, index) == s;
      forall i | 0 <= i < n ensures cache[s..s + n][i] == w[i] {
        ModBelow(s + i, L);
      }
    }
  }

  /** A batch that runs off the end of a cache holding more than one batch
      is the window once padded from the front of the cache. */
  lemma WindowIsPadded(cache: seq<Entity>, index: nat)
    requires index * BatchSize < |cache|
    requires BatchSize < |cache| < index * BatchSize + BatchSize
    ensures cache[index * BatchSize..] + cache[..index * BatchSize + BatchSize - |cache|] == Window(cache, index)
  {
    var L, s := |cache|, index * BatchSize;
    var w := Window(cache, index);
    var active := cache[s..] + cache[..s + BatchSize - L];
    assert BatchStart(L, index) == s;
    forall i | 0 <= i < BatchSize ensures active[i] == w[i] {
      if s + i < L {
        assert active[i] == cache[s + i];
        ModBelow(s + i, L);
      } else {
        assert active[i] == cache[s + i - L];
        ModOnce(s + i, L);
      }
    }
  }

  /** The window never shows a cache position twice. */
  lemma {:induction false} WindowPositionsDistinct(cacheLen: nat, rotationIndex: nat, i: nat, j: nat)
    requires i < j < Min(BatchSize, cacheLen)
    ensures (BatchStart(cacheLen, rotationIndex) + i) % cacheLen != (BatchStart(cacheLen, rotationIndex) + j) % cacheLen
  {
    var s := BatchStart(cacheLen, rotationIndex);
    if s + i < cacheLen { ModBelow(s + i, cacheLen); } else { ModOnce(s + i, cacheLen); }
    if s + j < cacheLen { ModBelow(s + j, cacheLen); } else { ModOnce(s + j, cacheLen); }
  }

  /** A cache of at most one batch is published whole, whatever the cursor. */
  lemma WindowOfSmallCache(cache: seq<Entity>, rotationIndex: nat)
    requires |cache| <= BatchSize
    ensures Window(cache, rotationIndex) == cache
  {
    var w := Window(cache, rotationIndex);
    assert BatchStart(|cache|, rotationIndex) == 0;
    forall i | 0 <= i < |cache| ensures w[i] == cache[i] {
      ModBelow(i, |cache|);
    }
  }

  /** Thirty cached tokens and cursor 1: the last five, then the first twenty. */
  lemma WindowWrapScenario(cache: seq<Entity>)
    requires |cache| == 30
    ensures Window(cache, 1) == cache[25..30] + cache[..20]
  {
    var w := Window(cache, 1);
    var expected := cache[25..30] + cache[..20];
    forall i | 0 <= i < 25 ensures w[i] == expected[i] {
      if i < 5 { ModBelow(25 + i, 30); } else { ModOnce(25 + i, 30); }
    }
  }

  /** Every cached token is published by the cursor of its batch, at its
      offset within the batch, and that cursor is never reset. */
  lemma EveryTokenIsPublished(cache: seq<Entity>, p: nat)
    requires p < |cache|
    ensures (p / BatchSize) * BatchSize < |cache| && ClampIndex(p / BatchSize, |cache|) == p / BatchSize
    ensures p % BatchSize < |Window(cache, p / BatchSize)|
    ensures Window(cache, p / BatchSize)[p % BatchSize] == cache[p]
  {
    var k, r := p / BatchSize, p % BatchSize;
    assert k * BatchSize + r == p;
    ModBelow(p, |cache|);
  }

  /** Everything published comes from the cache. */
  lemma WindowFromCache(cache: seq<Entity>, rotationIndex: nat)
    ensures forall k :: 0 <= k < |Window(cache, rotationIndex)| ==> Window(cache, rotationIndex)[k] in cache
  {
  }

  // ---------------------------------------------------------- the state

  /** The module-level state of `worldState.js`. */
  class World {
    var allTokensCache: seq<Entity>
    var lastFetchTime: int
    var rotationIndex: nat
    var currentState: StateDoc

    /** The cursor stays in range of a non-empty cache, and the published
        batch is the window of the cache at the cursor. */
    ghost predicate Valid()
      reads this
    {
      (|allTokensCache| > 0 ==> rotationIndex * BatchSize < |allTokensCache|) &&
      currentState.characters == Window(allTokensCache, rotationIndex)
    }

    constructor ()
      ensures Valid()
      ensures allTokensCache == [] && lastFetchTime == 0 && rotationIndex == 0
      ensures currentState == StateDoc([], 0)
    {
      allTokensCache := [];
      lastFetchTime := 0;
      rotationIndex := 0;
      currentState := StateDoc([], 0);
    }

    /** What one `updateWorldState` call does to the state: the cache and
        its fetch time are replaced together when a refresh is due and the
        upstream result is an array (even an empty one) and are kept
        otherwise; the cursor is reset when it is past the end of the cache;
        the published document is the window at the cursor. */
    twostate predicate UpdatedBy(now: int, topTokens: Option<seq<RawToken>>, finishedAt: int)
      reads this
    {
      var refreshed := NeedsRefresh(old(|allTokensCache|), old(lastFetchTime), now) && topTokens.Some?;
      && allTokensCache == (if refreshed then NormalizeAll(topTokens.value) else old(allTokensCache))
      && lastFetchTime == (if refreshed then now else old(lastFetchTime))
      && rotationIndex == ClampIndex(old(rotationIndex), |allTokensCache|)
      && currentState == StateDoc(Window(allTokensCache, rotationIndex), finishedAt)
    }

    /** `updateWorldState`. `now` is the clock when the call starts,
        `topTokens` what the upstream client yields if it is asked (`None`
        for a value that is not an array) and `finishedAt` the clock when the
        new state is stamped. Whatever the cursor was, the call leaves the
        state valid. */
    method UpdateWorldState(now: int, topTokens: Option<seq<RawToken>>, finishedAt: int) returns (st: StateDoc)
      modifies this
      ensures Valid() && UpdatedBy(now, topTokens, finishedAt)
      ensures st == currentState
    {
      if |allTokensCache| == 0 || now - lastFetchTime > FetchTtlMs {
        if topTokens.Some? {
          allTokensCache := NormalizeAll(topTokens.value);
          lastFetchTime := now;
        }
      }
      var active, index := SelectActiveTokens(allTokensCache, rotationIndex);
      rotationIndex := index;
      currentState := StateDoc(active, finishedAt);
      st := currentState;
    }

    /** One tick of the rotation timer: with a non-empty cache, advance the
        cursor (back to 0 past the end) and start an update. The update is
        neither awaited nor caught: when it throws (`updateFails`) before
        assigning anything, the cursor stays advanced while the published
        document still shows the previous batch. */
    method RotationTick(now: int, topTokens: Option<seq<RawToken>>, finishedAt: int, updateFails: bool)
      modifies this
      ensures (old(|allTokensCache|) == 0 && old(Valid())) || (old(|allTokensCache|) > 0 && !updateFails) ==> Valid()
      ensures old(|allTokensCache|) == 0 ==>
        allTokensCache == old(allTokensCache) && lastFetchTime == old(lastFetchTime) &&
        rotationIndex == old(rotationIndex) && currentState == old(currentState)
      ensures old(|allTokensCache|) > 0 && !updateFails ==>
        var refreshed := NeedsRefresh(old(|allTokensCache|), old(lastFetchTime), now) && topTokens.Some?;
        && allTokensCache == (if refreshed then NormalizeAll(topTokens.value) else old(allTokensCache))
        && lastFetchTime == (if refreshed then now else old(lastFetchTime))
        && rotationIndex == ClampIndex(AdvanceIndex(old(rotationIndex), old(|allTokensCache|)), |allTokensCache|)
        && currentState == StateDoc(Window(allTokensCache, rotationIndex), finishedAt)
      ensures old(|allTokensCache|) > 0 && updateFails ==>
        && allTokensCache == old(allTokensCache) && lastFetchTime == old(lastFetchTime)
        && rotationIndex == AdvanceIndex(old(rotationIndex), old(|allTokensCache|))
        && rotationIndex * BatchSize < |allTokensCache|
        && currentState == old(currentState)
    {
      if |allTokensCache| > 0 {
        rotationIndex := rotationIndex + 1;
        if rotationIndex * BatchSize >= |allTokensCache| {
          rotationIndex := 0;
        }
        if !updateFails {
          var _ := UpdateWorldState(now, topTokens, finishedAt);
        }
      }
    }

    /** `getWorldState`: the last published document; in a valid state it
        is the window of the cache at the cursor. */
    function GetWorldState(): (s: StateDoc)
      reads this
      ensures s == currentState
      ensures Valid() ==> s.characters == Window(allTokensCache, rotationIndex)
      ensures Valid() ==> |s.characters| == Min(BatchSize, |allTokensCache|)
      ensures Valid() ==> forall k :: 0 <= k < |s.characters| ==> s.characters[k] in allTokensCache
    {
      WindowFromCache(allTokensCache, rotationIndex);
      currentState
    }
  }

  /** A refresh that meets a failed upstream request: the client turns the
      error into an empty array, the update accepts it as a fresh list, and
      the cache and the published batch become empty. */
  method FetchFailureEmptiesWorld(w: World, now: int, finishedAt: int) returns (st: StateDoc)
    requires NeedsRefresh(|w.allTokensCache|, w.lastFetchTime, now)
    modifies w
    ensures w.allTokensCache == [] && w.lastFetchTime == now
    ensures st.characters == [] && w.currentState == st
  {
    var fetched := BagsApi.TopTokensWithStats<RawToken>(BagsApi.Threw);
    st := w.UpdateWorldState(now, Some(fetched), finishedAt);
  }
}
