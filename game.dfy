/** The client side of `game.js` that is not rendering: the island test,
    the display rules of the detail panel, a character's choice of a new
    walking target, and the reconciliation of the character map with each
    incoming state document. Phaser objects are not modelled; `Math.random`
    is the oracle `Rng`. */
module Game {
  import opened Common
  import opened Normalizer
  import opened WorldState

  // ------------------------------------------------------------- islands

  /** A disc of land, centred at (x, y) with radius r. */
  datatype Disc = Disc(x: real, y: real, r: real)

  /** `ISLAND_SHAPES`. */
  const IslandShapes: seq<Disc> := [
    Disc(0.0, 0.0, 380.0),
    Disc(-320.0, 150.0, 180.0),
    Disc(320.0, -100.0, 200.0),
    Disc(100.0, -350.0, 150.0),
    Disc(-150.0, 350.0, 140.0)]

  /** Strictly inside the disc: a point on the rim is water. */
  predicate InDisc(x: real, y: real, d: Disc) {
    (x - d.x) * (x - d.x) + (y - d.y) * (y - d.y) < d.r * d.r
  }

  predicate OnLand(x: real, y: real) {
    exists i :: 0 <= i < |IslandShapes| && InDisc(x, y, IslandShapes[i])
  }

  /** `isPointOnLand`: a search over the island discs. */
  method IsPointOnLand(x: real, y: real) returns (onLand: bool)
    ensures onLand <==> OnLand(x, y)
  {
    for i := 0 to |IslandShapes|
      invariant forall j :: 0 <= j < i ==> !InDisc(x, y, IslandShapes[j])
    {
      var shape := IslandShapes[i];
      var dx := x - shape.x;
      var dy := y - shape.y;
      if dx * dx + dy * dy < shape.r * shape.r {
        return true;
      }
    }
    return false;
  }

  lemma SquareBelow(d: real, r: real)
    requires r > 0.0 && d * d < r * r
    ensures -r < d < r
  {
  }

  /** A point strictly inside a disc lies strictly inside its bounding box. */
  lemma DiscBounded(x: real, y: real, d: Disc)
    requires d.r > 0.0 && InDisc(x, y, d)
    ensures d.x - d.r < x < d.x + d.r && d.y - d.r < y < d.y + d.r
  {
    var dx, dy := x - d.x, y - d.y;
    assert dx * dx >= 0.0 && dy * dy >= 0.0;
    SquareBelow(dx, d.r);
    SquareBelow(dy, d.r);
  }

  /** All land lies in the box (-500, 520) x (-500, 490). */
  lemma LandIsBounded(x: real, y: real)
    requires OnLand(x, y)
    ensures -500.0 < x < 520.0 && -500.0 < y < 490.0
  {
    var i :| 0 <= i < |IslandShapes| && InDisc(x, y, IslandShapes[i]);
    var d := IslandShapes[i];
    assert d.r > 0.0 && -500.0 <= d.x - d.r && d.x + d.r <= 520.0 && -500.0 <= d.y - d.r && d.y + d.r <= 490.0;
    DiscBounded(x, y, d);
  }

  /** The centre is land; the corner (400, 400) of the target area is water. */
  lemma LandSamples()
    ensures OnLand(0.0, 0.0)
    ensures !OnLand(400.0, 400.0)
  {
    assert InDisc(0.0, 0.0, IslandShapes[0]);
  }

  /** A draw in [0, 1) scatters into the square of side `span` centred on
      the origin. */
  lemma ScatterInSquare(draws: nat -> real, at: nat, span: real)
    requires 0.0 <= draws(at) < 1.0 && span > 0.0
    ensures -span / 2.0 <= Scatter(draws, at, span) < span / 2.0
  {
    var d := draws(at);
    assert Scatter(draws, at, span) == (d - 0.5) * span;
    assert (d - 0.5) * span == d * span - span / 2.0;
    assert 0.0 <= d * span < span;
  }

  /** Land reaches beyond both draw squares (the 800-wide one of
      `pickNewTarget` and the 600-wide one of the spawn search; see
      `LandIsBounded` for how far), so part of the islands is never chosen as
      a target or a spawn point. */
  lemma LandBeyondDrawSquares()
    ensures OnLand(-480.0, 150.0)
    ensures -480.0 < -TargetSpan / 2.0 && -480.0 < -SpawnSpan / 2.0
  {
    assert InDisc(-480.0, 150.0, IslandShapes[1]);
  }

  // ----------------------------------------------------- display rules

  /** The rank shown in the detail panel for a size tier. */
  function RankLabel(size: int): (rank: string)
    ensures rank == "HIGH" <==> size == 3
    ensures rank == "MED" <==> size == 2
    ensures rank == "LOW" <==> size != 2 && size != 3
  {
    if size == 3 then "HIGH" else if size == 2 then "MED" else "LOW"
  }

  /** The rank of a normalized token reads its fee total against the tier
      thresholds. */
  lemma RankOfFees(feesSol: real)
    ensures RankLabel(SizeTier(feesSol)) == "HIGH" <==> feesSol > LargeFeeThreshold
    ensures RankLabel(SizeTier(feesSol)) == "MED" <==> MediumFeeThreshold < feesSol <= LargeFeeThreshold
    ensures RankLabel(SizeTier(feesSol)) == "LOW" <==> feesSol <= MediumFeeThreshold
  {
  }

  const Ellipsis: string := "..."

  /** `id.slice(0, 4) + '...' + id.slice(-4)`: JavaScript's `slice` clamps,
      so a short address shows whole on both sides. */
  function AbbreviateAddress(id: string): (shown: string)
    ensures var k := Min(4, |id|);
      |shown| == 2 * k + 3 &&
      shown[..k] <= id &&
      shown[k..k + 3] == Ellipsis &&
      shown[k + 3..] == id[|id| - k..]
  {
    var k := Min(4, |id|);
    id[..k] + Ellipsis + id[|id| - k..]
  }

  /** Long addresses show their first and last four characters. */
  lemma AbbreviateLongAddress(id: string)
    requires |id| >= 4
    ensures AbbreviateAddress(id) == id[..4] + "..." + id[|id| - 4..]
    ensures |AbbreviateAddress(id)| == 11
  {
  }

  /** An address of fewer than four characters is shown twice. */
  lemma AbbreviateShortAddress(id: string)
    requires |id| < 4
    ensures AbbreviateAddress(id) == id + "..." + id
  {
    assert id[..|id|] == id && id[0..] == id;
  }

  // -------------------------------------------------------- randomness

  /** `Math.random` as an oracle: the n-th call returns `draws(n)`. */
  class Rng {
    const draws: nat -> real
    var next: nat

    constructor (draws: nat -> real)
      ensures this.draws == draws && next == 0
    {
      this.draws := draws;
      next := 0;
    }

    method Random() returns (r: real)
      modifies this
      ensures r == draws(old(next)) && next == old(next) + 1
    {
      r := draws(next);
      next := next + 1;
    }
  }

  /** `(Math.random() - 0.5) * span` for the draw at position `at`. */
  function Scatter(draws: nat -> real, at: nat, span: real): real {
    (draws(at) - 0.5) * span
  }

  // --------------------------------------------------------- characters

  /** Attempts `pickNewTarget` makes before giving up; attempts of the spawn
      search; the sides of the square areas they draw from. */
  const MaxTargetAttempts: nat := 20
  const MaxSpawnAttempts: nat := 10
  const TargetSpan: real := 800.0
  const SpawnSpan: real := 600.0

  datatype Mode = Idle | Moving

  /** `charData.speed || 1`. */
  function SpeedMultiplier(e: Entity): (m: real)
    ensures m != 0.0
    ensures e.speed != 0.0 ==> m == e.speed
    ensures e.speed == 0.0 ==> m == 1.0
  {
    if e.speed != 0.0 then e.speed else 1.0
  }

  /** Every normalized token walks at its own speed factor. */
  lemma NormalizedSpeedIsKept(t: RawToken)
    requires Truthy(t.token)
    ensures SpeedMultiplier(NormalizeCharacter(t).value) == NormalizeCharacter(t).value.speed
  {
  }

  /** The walking state of one token on the map. */
  class CustomCharacter {
    const id: string
    var data: Entity
    var mode: Mode
    var idleTime: real
    var targetX: real
    var targetY: real
    var moveSpeed: real
    var speedMultiplier: real
    var size: int
    /** False once `destroy()` has released the character's display objects. */
    var alive: bool

    /** A character standing at (x, y); draws its idle time and base speed. */
    constructor (data: Entity, x: real, y: real, rng: Rng)
      modifies rng
      ensures id == data.id && this.data == data && alive
      ensures mode == Idle && targetX == x && targetY == y
      ensures idleTime == rng.draws(old(rng.next)) * 2.0
      ensures moveSpeed == 30.0 + rng.draws(old(rng.next) + 1) * 20.0
      ensures rng.next == old(rng.next) + 2
      ensures speedMultiplier == SpeedMultiplier(data)
      ensures size == 16 * (if data.size != 0 then data.size else 1)
    {
      id := data.id;
      this.data := data;
      mode := Idle;
      var r1 := rng.Random();
      idleTime := r1 * 2.0;
      targetX, targetY := x, y;
      var r2 := rng.Random();
      moveSpeed := 30.0 + r2 * 20.0;
      speedMultiplier := SpeedMultiplier(data);
      size := 16 * (if data.size != 0 then data.size else 1);
      alive := true;
    }

    /** A known token's new record: `charObj.data = charData` and
        `charObj.speedMultiplier = charData.speed || 1`. */
    method Refresh(charData: Entity)
      modifies this`data, this`speedMultiplier
      ensures data == charData && speedMultiplier == SpeedMultiplier(charData)
    {
      data := charData;
      speedMultiplier := SpeedMultiplier(charData);
    }

    /** `destroy()`. */
    method Destroy()
      modifies this`alive
      ensures !alive
    {
      alive := false;
    }

    /** `pickNewTarget`: up to 20 random points of the 800-wide square are
        tried; the first one on land becomes the target and the character
        starts moving; if none is on land it goes idle and keeps its target. */
    method PickNewTarget(rng: Rng) returns (attempts: nat)
      modifies this`mode, this`targetX, this`targetY, rng
      ensures 1 <= attempts <= MaxTargetAttempts
      ensures rng.next == old(rng.next) + 2 * attempts
      ensures AllWater(rng.draws, old(rng.next), attempts - 1, TargetSpan)
      ensures mode == Moving ==>
        targetX == Scatter(rng.draws, old(rng.next) + 2 * (attempts - 1), TargetSpan) &&
        targetY == Scatter(rng.draws, old(rng.next) + 2 * (attempts - 1) + 1, TargetSpan) &&
        OnLand(targetX, targetY)
      ensures mode == Idle ==>
        attempts == MaxTargetAttempts && targetX == old(targetX) && targetY == old(targetY) &&
        AllWater(rng.draws, old(rng.next), attempts, TargetSpan)
    {
      var tx, ty, valid;
      tx, ty, valid, attempts := DrawTarget(rng);
      if valid {
        targetX, targetY := tx, ty;
        mode := Moving;
      } else {
        mode := Idle;
      }
    }
  }

  /** None of the `n` points drawn from position `base` on lies on land. */
  ghost predicate AllWater(draws: nat -> real, base: nat, n: int, span: real) {
    forall k :: 0 <= k < n ==> !OnLand(Scatter(draws, base + 2 * k, span), Scatter(draws, base + 2 * k + 1, span))
  }

  lemma AllWaterStep(draws: nat -> real, base: nat, n: nat, span: real)
    requires AllWater(draws, base, n, span)
    requires !OnLand(Scatter(draws, base + 2 * n, span), Scatter(draws, base + 2 * n + 1, span))
    ensures AllWater(draws, base, n + 1, span)
  {
  }

  /** The search loop of `pickNewTarget`: points are drawn until one is on
      land or 20 were drawn. */
  method DrawTarget(rng: Rng) returns (tx: real, ty: real, valid: bool, attempts: nat)
    modifies rng
    ensures 1 <= attempts <= MaxTargetAttempts
    ensures rng.next == old(rng.next) + 2 * attempts
    ensures AllWater(rng.draws, old(rng.next), attempts - 1, TargetSpan)
    ensures tx == Scatter(rng.draws, old(rng.next) + 2 * (attempts - 1), TargetSpan)
    ensures ty == Scatter(rng.draws, old(rng.next) + 2 * (attempts - 1) + 1, TargetSpan)
    ensures valid <==> OnLand(tx, ty)
    ensures !valid ==> attempts == MaxTargetAttempts
  {
    ghost var base := rng.next;
    valid := false;
    attempts := 0;
    tx, ty := 0.0, 0.0;
    while !valid && attempts < MaxTargetAttempts
      invariant 0 <= attempts <= MaxTargetAttempts
      invariant rng.next == base + 2 * attempts
      invariant valid ==> 1 <= attempts
      invariant 1 <= attempts ==>
        tx == Scatter(rng.draws, base + 2 * (attempts - 1), TargetSpan) &&
        ty == Scatter(rng.draws, base + 2 * (attempts - 1) + 1, TargetSpan) &&
        (valid <==> OnLand(tx, ty))
      invariant AllWater(rng.draws, base, attempts - 1, TargetSpan)
    {
      if 1 <= attempts {
        AllWaterStep(rng.draws, base, attempts - 1, TargetSpan);
      }
      var r1 := rng.Random();
      tx := (r1 - 0.5) * TargetSpan;
      var r2 := rng.Random();
      ty := (r2 - 0.5) * TargetSpan;
      valid := IsPointOnLand(tx, ty);
      attempts := attempts + 1;
    }
  }

  /** The spawn search of `handleWorldUpdate` (a do-while): points of the
      600-wide square are drawn until one is on land or ten were drawn; the
      last point drawn is used either way. */
  method SpawnPoint(rng: Rng) returns (sx: real, sy: real, attempts: nat)
    modifies rng
    ensures 1 <= attempts <= MaxSpawnAttempts
    ensures rng.next == old(rng.next) + 2 * attempts
    ensures sx == Scatter(rng.draws, old(rng.next) + 2 * (attempts - 1), SpawnSpan)
    ensures sy == Scatter(rng.draws, old(rng.next) + 2 * (attempts - 1) + 1, SpawnSpan)
    ensures OnLand(sx, sy) || attempts == MaxSpawnAttempts
    ensures AllWater(rng.draws, old(rng.next), attempts - 1, SpawnSpan)
  {
    ghost var base := rng.next;
    attempts := 0;
    var onLand := false;
    sx, sy := 0.0, 0.0;
    while attempts == 0 || (!onLand && attempts < MaxSpawnAttempts)
      invariant 0 <= attempts <= MaxSpawnAttempts
      invariant rng.next == base + 2 * attempts
      invariant 1 <= attempts ==>
        sx == Scatter(rng.draws, base + 2 * (attempts - 1), SpawnSpan) &&
        sy == Scatter(rng.draws, base + 2 * (attempts - 1) + 1, SpawnSpan) &&
        (onLand <==> OnLand(sx, sy))
      invariant AllWater(rng.draws, base, attempts - 1, SpawnSpan)
      decreases MaxSpawnAttempts - attempts
    {
      if 1 <= attempts {
        AllWaterStep(rng.draws, base, attempts - 1, SpawnSpan);
      }
      var r1 := rng.Random();
      sx := (r1 - 0.5) * SpawnSpan;
      var r2 := rng.Random();
      sy := (r2 - 0.5) * SpawnSpan;
      attempts := attempts + 1;
      onLand := IsPointOnLand(sx, sy);
    }
  }

  /** A new character for a record, standing at a spawn point. */
  method Spawn(charData: Entity, rng: Rng) returns (charObj: CustomCharacter)
    modifies rng
    ensures fresh(charObj) && charObj.mode == Idle
    ensures charObj.id == charData.id && charObj.data == charData && charObj.alive
    ensures charObj.speedMultiplier == SpeedMultiplier(charData)
    ensures old(rng.next) + 4 <= rng.next <= old(rng.next) + 2 * MaxSpawnAttempts + 2
    ensures charObj.targetX == Scatter(rng.draws, rng.next - 4, SpawnSpan)
    ensures charObj.targetY == Scatter(rng.draws, rng.next - 3, SpawnSpan)
    ensures OnLand(charObj.targetX, charObj.targetY) || rng.next == old(rng.next) + 2 * MaxSpawnAttempts + 2
    ensures AllWater(rng.draws, old(rng.next), (rng.next - old(rng.next)) / 2 - 2, SpawnSpan)
  {
    var sx, sy, _ := SpawnPoint(rng);
    charObj := new CustomCharacter(charData, sx, sy, rng);
  }

  // ------------------------------------------------------ reconciliation

  /** The ids of a batch of characters. */
  function IdsOf(cs: seq<Entity>): set<string>
  {
    set i | 0 <= i < |cs| :: cs[i].id
  }

  /** The record of the batch that a character with this id ends up showing:
      the last one with that id. */
  function LastWithId(cs: seq<Entity>, id: string): (e: Entity)
    requires id in IdsOf(cs)
    ensures e.id == id
    ensures exists i :: 0 <= i < |cs| && cs[i] == e && forall j :: i < j < |cs| ==> cs[j].id != id
    decreases |cs|
  {
    var n := |cs| - 1;
    if cs[n].id == id then cs[n]
    else
      assert forall i :: 0 <= i < n ==> cs[..n][i] == cs[i];
      var e := LastWithId(cs[..n], id);
      e
  }

  lemma IdsOfSnoc(cs: seq<Entity>, c: Entity)
    ensures IdsOf(cs + [c]) == IdsOf(cs) + {c.id}
  {
    var both := cs + [c];
    assert forall i :: 0 <= i < |cs| ==> both[i] == cs[i];
    assert both[|cs|] == c;
  }

  /** Appending one record: that record now wins for its id, other ids keep
      their winner. */
  lemma LastWithIdSnoc(cs: seq<Entity>, c: Entity, id: string)
    requires id in IdsOf(cs + [c])
    ensures id == c.id ==> LastWithId(cs + [c], id) == c
    ensures id != c.id ==> id in IdsOf(cs) && LastWithId(cs + [c], id) == LastWithId(cs, id)
  {
    assert (cs + [c])[..|cs|] == cs;
    assert (cs + [c])[|cs|] == c;
  }

  /** What the characters show after a pass over a batch: each record, in
      order, overrides the entry of its id. */
  function Latest(cs: seq<Entity>): map<string, Entity>
    decreases |cs|
  {
    if |cs| == 0 then map[]
    else Latest(cs[..|cs| - 1])[cs[|cs| - 1].id := cs[|cs| - 1]]
  }

  /** The pass shows exactly the incoming ids, each with the last record of
      the batch that carries it. */
  lemma {:induction false} LatestIsLastRecord(cs: seq<Entity>)
    ensures Latest(cs).Keys == IdsOf(cs)
    ensures forall id :: id in IdsOf(cs) ==> Latest(cs)[id] == LastWithId(cs, id)
    decreases |cs|
  {
    if |cs| == 0 {
      assert IdsOf(cs) == {};
    } else {
      var n := |cs| - 1;
      var p, c := cs[..n], cs[n];
      assert cs == p + [c];
      LatestIsLastRecord(p);
      IdsOfSnoc(p, c);
      forall id | id in IdsOf(cs)
        ensures Latest(cs)[id] == LastWithId(cs, id)
      {
        LastWithIdSnoc(p, c, id);
      }
    }
  }

  /** A map whose entries include those of `m0` agrees with `m0` on its keys. */
  lemma ItemsIncluded<K, V>(m0: map<K, V>, m1: map<K, V>)
    requires m0.Items <= m1.Items
    ensures forall k :: k in m0 ==> k in m1 && m1[k] == m0[k]
  {
    forall k | k in m0
      ensures k in m1 && m1[k] == m0[k]
    {
      assert (k, m0[k]) in m1.Items;
    }
  }

  lemma UpdateOverride(a: map<string, Entity>, b: map<string, Entity>, k: string, v: Entity)
    ensures (a + b)[k := v] == a + b[k := v]
  {
  }

  /** One more record of a pass over a batch, on top of an earlier view. */
  lemma LatestStep(m: map<string, Entity>, cs: seq<Entity>, k: nat)
    requires k < |cs|
    ensures (m + Latest(cs[..k]))[cs[k].id := cs[k]] == m + Latest(cs[..k + 1])
  {
    assert cs[..k + 1][..k] == cs[..k];
    UpdateOverride(m, Latest(cs[..k]), cs[k].id, cs[k]);
  }

  /** The client's copy of the world: the scene (once created), the last
      document received and one character per displayed token. */
  class Client {
    var sceneReady: bool
    var worldState: StateDoc
    var charactersMap: map<string, CustomCharacter>
    /** Every character this client has ever put on its map. */
    ghost var filed: set<CustomCharacter>

    /** Each character on the map is one the client filed, is filed under
        its own id (so no character is filed twice), has not been
        destroyed, and walks at its record's speed factor. */
    ghost predicate Valid()
      reads this, filed
    {
      (forall id :: id in charactersMap ==>
            charactersMap[id] in filed && charactersMap[id].id == id && charactersMap[id].alive &&
            charactersMap[id].speedMultiplier == SpeedMultiplier(charactersMap[id].data))
    }

    /** The characters on the map are filed under exactly the keys of
        `view`, and each shows the record `view` holds for its id. */
    ghost predicate Shows(view: map<string, Entity>)
      reads this, filed
    {
      && charactersMap.Keys == view.Keys
      && forall id :: id in view ==> charactersMap[id] in filed && charactersMap[id].data == view[id]
    }

    /** The records the characters on the map show. */
    ghost function Shown(): (view: map<string, Entity>)
      reads this, filed
      requires Valid()
      ensures Shows(view)
    {
      map id | id in charactersMap :: charactersMap[id].data
    }

    constructor ()
      ensures Valid() && !sceneReady && worldState == StateDoc([], 0) && charactersMap == map[]
      ensures filed == {}
    {
      sceneReady := false;
      worldState := StateDoc([], 0);
      charactersMap := map[];
      filed := {};
    }

    /** `create()` registers the scene (`sceneRef = this`); the rest of the
        scene set-up is rendering. */
    method CreateScene()
      requires Valid()
      modifies this`sceneReady
      ensures Valid() && sceneReady
    {
      sceneReady := true;
    }

    /** `handleWorldUpdate`: without a scene nothing happens; otherwise the
        characters end up showing exactly the incoming ids, each with the
        last record carrying it. A known id keeps its character, of which
        only the record and speed factor change (the frame says so); an
        unknown id gets a fresh idle character at a spawn point; every other
        character is destroyed and removed. Every character this call
        files is newly created. */
    method HandleWorldUpdate(state: StateDoc, rng: Rng)
      requires Valid()
      modifies this, rng, filed`data, filed`speedMultiplier, filed`alive
      ensures Valid() && sceneReady == old(sceneReady)
      ensures !old(sceneReady) ==> unchanged(this, rng) && unchanged(filed)
      ensures old(sceneReady) ==>
        && worldState == state
        && Shows(Latest(state.characters))
        && (forall id :: id in charactersMap && id in old(charactersMap) ==> charactersMap[id] == old(charactersMap[id]))
        && fresh(filed - old(filed))
        && (forall id :: id in old(charactersMap) && id !in charactersMap ==> !old(charactersMap)[id].alive)
    {
      if !sceneReady {
        return;
      }
      worldState := state;
      Reconcile(state.characters, rng);
    }

    /** The body of `handleWorldUpdate` once the scene exists. */
    method Reconcile(cs: seq<Entity>, rng: Rng)
      requires Valid()
      modifies this`charactersMap, this`filed, rng, filed`data, filed`speedMultiplier, filed`alive
      ensures Valid() && Shows(Latest(cs))
      ensures forall id :: id in charactersMap && id in old(charactersMap) ==> charactersMap[id] == old(charactersMap[id])
      ensures fresh(filed - old(filed))
      ensures forall id :: id in old(charactersMap) && id !in charactersMap ==> !old(charactersMap)[id].alive
    {
      var incoming := IdsOf(cs);
      ghost var view := Shown();
      MergeBatch(cs, rng, view);
      ItemsIncluded(old(charactersMap), charactersMap);
      PruneMissing(incoming);
      LatestIsLastRecord(cs);
    }

    /** The character filed under `id`, as a frame. */
    function Filed(id: string): (objs: set<CustomCharacter>)
      reads this
      ensures id in charactersMap ==> objs == {charactersMap[id]}
      ensures id !in charactersMap ==> objs == {}
    {
      if id in charactersMap then {charactersMap[id]} else {}
    }

    /** One step of the `forEach` of `handleWorldUpdate`: a known id gets the
        new record; an unknown one a new character at a spawn point. */
    method Upsert(charData: Entity, rng: Rng, ghost view: map<string, Entity>)
      requires Valid() && Shows(view)
      modifies this`charactersMap, this`filed, rng, Filed(charData.id)`data, Filed(charData.id)`speedMultiplier
      ensures Valid() && Shows(view[charData.id := charData])
      ensures old(charactersMap).Items <= charactersMap.Items
      ensures fresh(filed - old(filed))
      ensures charData.id !in old(charactersMap) ==> fresh(charactersMap[charData.id])
    {
      if charData.id in charactersMap {
        RefreshFiled(charData, view);
      } else {
        FileNew(charData, rng, view);
      }
    }

    /** A known id: its character takes the new record. */
    method RefreshFiled(charData: Entity, ghost view: map<string, Entity>)
      requires Valid() && Shows(view) && charData.id in charactersMap
      modifies Filed(charData.id)`data, Filed(charData.id)`speedMultiplier
      ensures Valid() && Shows(view[charData.id := charData])
    {
      charactersMap[charData.id].Refresh(charData);
    }

    /** An unknown id: a new character at a spawn point. */
    method FileNew(charData: Entity, rng: Rng, ghost view: map<string, Entity>)
      requires Valid() && Shows(view) && charData.id !in charactersMap
      modifies this`charactersMap, this`filed, rng
      ensures Valid() && Shows(view[charData.id := charData])
      ensures old(charactersMap).Items <= charactersMap.Items
      ensures fresh(filed - old(filed))
      ensures fresh(charactersMap[charData.id]) && charactersMap[charData.id].mode == Idle
    {
      var charObj := Spawn(charData, rng);
      charactersMap := charactersMap[charData.id := charObj];
      filed := filed + {charObj};
    }

    /** The `forEach` of `handleWorldUpdate` over a batch. */
    method MergeBatch(cs: seq<Entity>, rng: Rng, ghost view: map<string, Entity>)
      requires Valid() && Shows(view)
      modifies this`charactersMap, this`filed, rng, filed`data, filed`speedMultiplier
      ensures Valid() && Shows(view + Latest(cs))
      ensures old(charactersMap).Items <= charactersMap.Items
      ensures fresh(filed - old(filed))
    {
      ghost var m0 := charactersMap;
      var k := 0;
      while k < |cs|
        invariant 0 <= k <= |cs|
        invariant Valid() && Shows(view + Latest(cs[..k]))
        invariant m0.Items <= charactersMap.Items
        invariant fresh(filed - old(filed))
      {
        var charData := cs[k];
        LatestStep(view, cs, k);
        Upsert(charData, rng, view + Latest(cs[..k]));
        k := k + 1;
      }
      assert cs[..k] == cs;
    }

    /** The delete loop of `handleWorldUpdate`: destroy and remove every
        character whose id is not incoming. */
    method PruneMissing(incoming: set<string>)
      requires Valid()
      modifies this`charactersMap, filed`alive
      ensures Valid()
      ensures charactersMap.Keys == old(charactersMap).Keys * incoming
      ensures forall id :: id in charactersMap ==> charactersMap[id] == old(charactersMap[id])
      ensures forall id :: id in old(charactersMap) && id !in incoming ==> !old(charactersMap)[id].alive
    {
      ghost var m1 := charactersMap;
      var pending := charactersMap.Keys;
      while pending != {}
        invariant pending <= m1.Keys
        invariant forall id :: id in m1 ==> m1[id].id == id
        invariant charactersMap.Keys <= m1.Keys
        invariant forall id :: id in pending ==> id in charactersMap
        invariant forall id :: id in m1 && id !in pending ==> (id in charactersMap <==> id in incoming)
        invariant forall id :: id in charactersMap ==> charactersMap[id] == m1[id]
        invariant Valid()
        invariant forall id :: id in m1.Keys - pending && id !in incoming ==> !m1[id].alive
        decreases pending
      {
        var id :| id in pending;
        if id !in incoming {
          Discard(id, m1);
        }
        pending := pending - {id};
      }
    }

    /** Destroy the character filed under `id` and take it off the map;
        every other character of `m1` keeps its `alive` flag. */
    method Discard(id: string, ghost m1: map<string, CustomCharacter>)
      requires Valid() && id in charactersMap
      requires id in m1 && m1[id] == charactersMap[id]
      requires forall j :: j in m1 ==> m1[j].id == j
      modifies this`charactersMap, Filed(id)`alive
      ensures Valid()
      ensures charactersMap == old(charactersMap) - {id}
      ensures !m1[id].alive
      ensures forall j :: j in m1 && j != id ==> m1[j].alive == old(m1[j].alive)
    {
      var charObj := charactersMap[id];
      charObj.Destroy();
      charactersMap := charactersMap - {id};
    }
  }
}
