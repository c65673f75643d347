/** The record normalizer: one upstream token record, as the lifetime-fees
    endpoint delivers it, becomes one display entity (a "character"), or is
    dropped when it has no mint address. Pure: no state, no I/O. */
module Normalizer {
  import opened Common

  /** Lamports per SOL: fees arrive in lamports and are shown in SOL. */
  const LamportsPerSol: real := 1_000_000_000.0
  /** Fee totals (in SOL) above which a character is medium or large. */
  const MediumFeeThreshold: real := 200.0
  const LargeFeeThreshold: real := 2000.0
  /** The speed factor grows by 1 for every 10 points of price change, by at most 2. */
  const MaxExtraSpeed: real := 2.0

  /** One entry of a token's top-level `creators` list. */
  datatype CreatorRecord = CreatorRecord(
    isCreator: bool,
    username: Option<string>,
    twitterUsername: Option<string>,
    pfp: Option<string>,
    royaltyBps: Option<real>)

  /** The `stats24h` object inside `tokenInfo`. */
  datatype Stats24h = Stats24h(
    priceChange: Option<real>,
    buyVolume: Option<real>,
    sellVolume: Option<real>)

  /** The `tokenInfo` object of a record. */
  datatype TokenInfo = TokenInfo(
    symbol: Option<string>,
    name: Option<string>,
    icon: Option<string>,
    holderCount: Option<real>,
    mcap: Option<real>,
    usdPrice: Option<real>,
    stats24h: Option<Stats24h>)

  /** A raw upstream record; every field may be missing. `lifetimeFees` is
      the lamport amount after `parseFloat`. */
  datatype RawToken = RawToken(
    token: Option<string>,
    tokenInfo: Option<TokenInfo>,
    creators: Option<seq<CreatorRecord>>,
    lifetimeFees: Option<real>)

  /** Who is shown as creator or royalty receiver. */
  datatype Attribution = Attribution(username: Option<string>, pfp: Option<string>, handle: Option<string>)

  /** A normalized display entity. `size` is the tier (1 small, 2 medium,
      3 large); `state` is always "active". */
  datatype Entity = Entity(
    id: string,
    symbol: string,
    name: string,
    icon: Option<string>,
    size: int,
    speed: real,
    state: string,
    fees: real,
    priceDelta: real,
    mcap: real,
    volume24h: real,
    holders: real,
    creator: Attribution,
    royalty: Attribution,
    priceUsd: real)

  const UnknownCreator: Attribution := Attribution(Some("Unknown"), None, Some("Unknown"))
  const NoRoyalty: Attribution := Attribution(Some("None"), None, Some("None"))
  const EmptyInfo: TokenInfo := TokenInfo(None, None, None, None, None, None, None)
  const EmptyStats: Stats24h := Stats24h(None, None, None)

  // ---------------------------------------------------------------- tiers

  /** The size tier of a fee total in SOL: a step function with strict
      thresholds, so exactly 200 and exactly 2000 stay in the lower tier. */
  function SizeTier(feesSol: real): (size: int)
    ensures 1 <= size <= 3
    ensures size == 3 <==> feesSol > LargeFeeThreshold
    ensures size == 2 <==> MediumFeeThreshold < feesSol <= LargeFeeThreshold
    ensures size == 1 <==> feesSol <= MediumFeeThreshold
  {
    if feesSol > LargeFeeThreshold then 3
    else if feesSol > MediumFeeThreshold then 2
    else 1
  }

  /** More fees never give a smaller tier. */
  lemma SizeTierMonotone(a: real, b: real)
    requires a <= b
    ensures SizeTier(a) <= SizeTier(b)
  {
  }

  /** The documented boundary values. */
  lemma SizeTierBoundaries()
    ensures SizeTier(0.0) == 1 && SizeTier(200.0) == 1 && SizeTier(200.0001) == 2
    ensures SizeTier(2000.0) == 2 && SizeTier(2000.0001) == 3
  {
  }

  // ---------------------------------------------------------------- speed

  function Abs(x: real): (a: real)
    ensures a >= 0.0 && (a == x || a == -x)
  {
    if x < 0.0 then -x else x
  }

  /** The speed factor derived from the 24h price change in percent:
      1 plus a tenth of its magnitude, capped at 3. */
  function ActivitySpeed(priceChange: real): (speed: real)
    ensures 1.0 <= speed <= 1.0 + MaxExtraSpeed
    ensures Abs(priceChange) >= 20.0 ==> speed == 3.0
    ensures Abs(priceChange) < 20.0 ==> speed == 1.0 + Abs(priceChange) / 10.0
  {
    var scaled := Abs(priceChange) / 10.0;
    1.0 + (if scaled <= MaxExtraSpeed then scaled else MaxExtraSpeed)
  }

  /** A fall and a rise of the same size give the same speed. */
  lemma ActivitySpeedSymmetric(d: real)
    ensures ActivitySpeed(-d) == ActivitySpeed(d)
  {
  }

  /** A larger swing never gives a smaller speed. */
  lemma ActivitySpeedMonotone(a: real, b: real)
    requires Abs(a) <= Abs(b)
    ensures ActivitySpeed(a) <= ActivitySpeed(b)
  {
  }

  // ---------------------------------------------------------- attribution

  predicate PaysRoyalty(c: CreatorRecord) {
    c.royaltyBps.Some? && c.royaltyBps.value > 0.0
  }

  /** How a creator entry is shown when it is the creator or the first
      royalty receiver that is not the creator. */
  function Displayed(c: CreatorRecord): (a: Attribution)
    ensures Truthy(a.username)
    ensures Truthy(c.username) ==> a.username == c.username
    ensures !Truthy(c.username) && Truthy(c.twitterUsername) ==> a.username == c.twitterUsername
    ensures !Truthy(c.username) && !Truthy(c.twitterUsername) ==> a.username == Some("Unknown")
    ensures Truthy(c.twitterUsername) ==> a.handle == c.twitterUsername
    ensures !Truthy(c.twitterUsername) ==> a.handle == c.username
    ensures a.pfp == c.pfp
  {
    Attribution(Some(StrOr(OptOr(c.username, c.twitterUsername), "Unknown")), c.pfp, OptOr(c.twitterUsername, c.username))
  }

  /** How the fallback royalty receiver is shown: no "Unknown" default. */
  function DisplayedFallback(c: CreatorRecord): (a: Attribution)
    ensures Truthy(a.username) <==> Truthy(c.username) || Truthy(c.twitterUsername)
    ensures Truthy(c.username) ==> a.username == c.username
    ensures !Truthy(c.username) ==> a.username == c.twitterUsername
    ensures Truthy(c.twitterUsername) ==> a.handle == c.twitterUsername
    ensures !Truthy(c.twitterUsername) ==> a.handle == c.username
    ensures a.pfp == c.pfp
  {
    Attribution(OptOr(c.username, c.twitterUsername), c.pfp, OptOr(c.twitterUsername, c.username))
  }

  /** The creator: the first entry flagged `isCreator`, else the first entry,
      else the "Unknown" sentinel. */
  function ResolveCreator(cs: seq<CreatorRecord>): (a: Attribution)
    ensures Truthy(a.username)
    ensures (exists i :: 0 <= i < |cs| && cs[i].isCreator) ==>
      exists i :: 0 <= i < |cs| && cs[i].isCreator && (forall j :: 0 <= j < i ==> !cs[j].isCreator) && a == Displayed(cs[i])
    ensures (forall i :: 0 <= i < |cs| ==> !cs[i].isCreator) && |cs| > 0 ==> a == Displayed(cs[0])
    ensures |cs| == 0 ==> a == UnknownCreator
  {
    match FindIndex(cs, (c: CreatorRecord) => c.isCreator)
    case Some(i) => Displayed(cs[i])
    case None => if |cs| > 0 then Displayed(cs[0]) else UnknownCreator
  }

  /** The royalty receiver: the first paying entry whose username differs from
      the creator's, else (when the list is non-empty) the first paying entry,
      else the "None" sentinel. */
  function ResolveRoyalty(cs: seq<CreatorRecord>, creatorName: Option<string>): (a: Attribution)
    ensures (exists i :: 0 <= i < |cs| && PaysRoyalty(cs[i]) && cs[i].username != creatorName) ==>
      exists i :: 0 <= i < |cs| && PaysRoyalty(cs[i]) && cs[i].username != creatorName &&
        (forall j :: 0 <= j < i ==> !(PaysRoyalty(cs[j]) && cs[j].username != creatorName)) &&
        a == Displayed(cs[i])
    ensures ((forall i :: 0 <= i < |cs| ==> !(PaysRoyalty(cs[i]) && cs[i].username != creatorName)) &&
             (exists i :: 0 <= i < |cs| && PaysRoyalty(cs[i]))) ==>
      exists i :: 0 <= i < |cs| && PaysRoyalty(cs[i]) && (forall j :: 0 <= j < i ==> !PaysRoyalty(cs[j])) &&
        a == DisplayedFallback(cs[i])
    ensures (forall i :: 0 <= i < |cs| ==> !PaysRoyalty(cs[i])) ==> a == NoRoyalty
  {
    match FindIndex(cs, (c: CreatorRecord) => PaysRoyalty(c) && c.username != creatorName)
    case Some(i) => Displayed(cs[i])
    case None =>
      if |cs| > 0 then
        match FindIndex(cs, PaysRoyalty)
        case Some(i) => DisplayedFallback(cs[i])
        case None => NoRoyalty
      else NoRoyalty
  }

  /** When the creator (with a username) is the only paying entry, the
      royalty falls back to the creator's own entry; when the creator has no
      username, its display name differs from its own (absent) username and
      the first pass already picks it. */
  lemma RoyaltyOfSoleCreator(c: CreatorRecord)
    requires PaysRoyalty(c)
    ensures Truthy(c.username) ==> ResolveRoyalty([c], ResolveCreator([c]).username) == DisplayedFallback(c)
    ensures !Truthy(c.username) ==> ResolveRoyalty([c], ResolveCreator([c]).username) == Displayed(c)
  {
    var a := ResolveCreator([c]);
    assert a == Displayed(c);
  }

  // --------------------------------------------------------- the record

  /** `normalizeCharacter`: `None` exactly when the mint address is missing or
      empty; otherwise every field is defaulted as the display needs it. */
  function NormalizeCharacter(t: RawToken): (r: Option<Entity>)
    ensures r.None? <==> !Truthy(t.token)
    ensures r.Some? ==> Some(r.value.id) == t.token && r.value.state == "active"
    ensures r.Some? ==> r.value.symbol != "" && r.value.name != ""
    ensures r.Some? ==> 1 <= r.value.size <= 3 && 1.0 <= r.value.speed <= 3.0
    ensures r.Some? ==> r.value.size == SizeTier(r.value.fees) && r.value.speed == ActivitySpeed(r.value.priceDelta)
    ensures r.Some? ==> r.value.fees * LamportsPerSol == NumOr0(t.lifetimeFees)
    ensures r.Some? ==> Truthy(r.value.creator.username)
    ensures r.Some? && t.tokenInfo.None? ==>
      r.value.symbol == "???" && r.value.name == "???" && r.value.icon.None? &&
      r.value.holders == 0.0 && r.value.mcap == 0.0 && r.value.priceUsd == 0.0 &&
      r.value.priceDelta == 0.0 && r.value.volume24h == 0.0 && r.value.speed == 1.0
    ensures r.Some? && t.creators.None? ==> r.value.creator == UnknownCreator && r.value.royalty == NoRoyalty
    ensures r.Some? && t.creators.Some? ==>
      r.value.creator == ResolveCreator(t.creators.value) &&
      r.value.royalty == ResolveRoyalty(t.creators.value, r.value.creator.username)
  {
    var info := if t.tokenInfo.Some? then t.tokenInfo.value else EmptyInfo;
    var symbol := StrOr(info.symbol, "???");
    var name := StrOr(info.name, symbol);
    var icon := if Truthy(info.icon) then info.icon else None;
    var creators := if t.creators.Some? then t.creators.value else [];
    var creator := ResolveCreator(creators);
    var royalty := ResolveRoyalty(creators, creator.username);
    if !Truthy(t.token) then None
    else
      var feesSol := NumOr0(t.lifetimeFees) / LamportsPerSol;
      var stats := if info.stats24h.Some? then info.stats24h.value else EmptyStats;
      var priceChange := NumOr0(stats.priceChange);
      Some(Entity(
        id := t.token.value,
        symbol := symbol,
        name := name,
        icon := icon,
        size := SizeTier(feesSol),
        speed := ActivitySpeed(priceChange),
        state := "active",
        fees := feesSol,
        priceDelta := priceChange,
        mcap := NumOr0(info.mcap),
        volume24h := NumOr0(stats.buyVolume) + NumOr0(stats.sellVolume),
        holders := NumOr0(info.holderCount),
        creator := creator,
        royalty := royalty,
        priceUsd := NumOr0(info.usdPrice)))
  }

  /** The fields of a present `tokenInfo`: a truthy symbol, name and icon
      pass through, amounts default to 0 one by one, and the 24h volume is
      the sum of buys and sells. */
  lemma NormalizedInfoFields(t: RawToken, info: TokenInfo)
    requires Truthy(t.token) && t.tokenInfo == Some(info)
    ensures var e := NormalizeCharacter(t).value;
      && (Truthy(info.symbol) ==> Some(e.symbol) == info.symbol)
      && (!Truthy(info.symbol) ==> e.symbol == "???")
      && (Truthy(info.name) ==> Some(e.name) == info.name)
      && (!Truthy(info.name) ==> e.name == e.symbol)
      && (Truthy(info.icon) ==> e.icon == info.icon)
      && (!Truthy(info.icon) ==> e.icon.None?)
      && e.holders == NumOr0(info.holderCount)
      && e.mcap == NumOr0(info.mcap)
      && e.priceUsd == NumOr0(info.usdPrice)
      && (info.stats24h.None? ==> e.priceDelta == 0.0 && e.volume24h == 0.0)
      && (info.stats24h.Some? ==>
            e.priceDelta == NumOr0(info.stats24h.value.priceChange) &&
            e.volume24h == NumOr0(info.stats24h.value.buyVolume) + NumOr0(info.stats24h.value.sellVolume))
  {
  }

  /** A name falls back to the symbol, and the symbol to "???". */
  lemma NameFallsBackToSymbol(t: RawToken, info: TokenInfo)
    requires Truthy(t.token) && t.tokenInfo == Some(info) && !Truthy(info.name)
    ensures NormalizeCharacter(t).value.name == NormalizeCharacter(t).value.symbol
    ensures !Truthy(info.symbol) ==> NormalizeCharacter(t).value.symbol == "???"
  {
  }
}
