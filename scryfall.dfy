/**
 * ScryfallClient (packages/core/src/scryfall.ts): normalises Scryfall card
 * responses and spaces requests by at least RATE_LIMIT_DELAY milliseconds.
 * The clock is read as integer milliseconds supplied by the caller; an
 * HTTP exchange is an abstract result; every wait and fetch the client
 * performs is recorded in order.
 */
module Scryfall {
  import opened Wrappers
  import opened Types

  const RateLimitDelay: int := 100

  datatype ImageUris = ImageUris(normal: Option<string>)

  datatype CardFace = CardFace(imageUris: Option<ImageUris>)

  /**
   * The response fields transform reads. arena_id, the image fields and
   * oracle_id may be absent; id, name, set and collector number are taken as
   * present.
   */
  datatype ScryfallCard = ScryfallCard(
    id: string,
    arenaId: Option<int>,
    name: string,
    setCode: string,
    collectorNumber: string,
    imageUris: Option<ImageUris>,
    cardFaces: Option<seq<CardFace>>,
    oracleId: Option<string>)

  /** `data.image_uris?.normal` */
  function TopImage(d: ScryfallCard): Option<string> {
    if d.imageUris.Some? then d.imageUris.value.normal else None
  }

  /** `data.card_faces?.[0]?.image_uris?.normal` */
  function FirstFaceImage(d: ScryfallCard): Option<string> {
    if d.cardFaces.Some? && |d.cardFaces.value| > 0 && d.cardFaces.value[0].imageUris.Some?
    then d.cardFaces.value[0].imageUris.value.normal
    else None
  }

  /**
   * transform: the Card built from a response. The image is the top-level
   * normal image when truthy, else the first face's, else the empty string.
   */
  function Transform(d: ScryfallCard): (c: Card)
    ensures c.id == d.id && c.name == d.name && c.setCode == d.setCode
    ensures c.collectorNumber == d.collectorNumber && c.oracleId == d.oracleId
    ensures c.mtgaId == (if TruthyNumber(d.arenaId) then d.arenaId.value else 0)
    ensures TruthyString(TopImage(d)) ==> c.imageUri == TopImage(d).value
    ensures !TruthyString(TopImage(d)) && TruthyString(FirstFaceImage(d)) ==> c.imageUri == FirstFaceImage(d).value
    ensures c.imageUri == "" <==> !TruthyString(TopImage(d)) && !TruthyString(FirstFaceImage(d))
  {
    var top := TopImage(d);
    var face := FirstFaceImage(d);
    Card(
      id := d.id,
      mtgaId := if d.arenaId.Some? && d.arenaId.value != 0 then d.arenaId.value else 0,
      name := d.name,
      setCode := d.setCode,
      collectorNumber := d.collectorNumber,
      imageUri := if top.Some? && top.value != "" then top.value
                  else if face.Some? && face.value != "" then face.value
                  else "",
      oracleId := d.oracleId)
  }

  /** The image always comes from the response: one of its two normal images, or none. */
  lemma ImageComesFromResponse(d: ScryfallCard)
    ensures Transform(d).imageUri == "" || Some(Transform(d).imageUri) == TopImage(d) ||
            Some(Transform(d).imageUri) == FirstFaceImage(d)
  {
  }

  /** A double-faced card without a top-level image takes its first face's image. */
  lemma DoubleFacedImage(d: ScryfallCard, front: string, back: CardFace)
    requires d.imageUris.None? && d.cardFaces == Some([CardFace(Some(ImageUris(Some(front)))), back]) && front != ""
    ensures Transform(d).imageUri == front
  {
  }

  /**
   * throttle's wait: whatever remains of RATE_LIMIT_DELAY since the last
   * request, or nothing when that much time has already passed.
   */
  function Delay(last: int, now: int): (d: int)
    ensures d >= 0
    ensures now - last < RateLimitDelay ==> now + d == last + RateLimitDelay
    ensures now - last >= RateLimitDelay ==> d == 0
  {
    var since := now - last;
    if since < RateLimitDelay then RateLimitDelay - since else 0
  }

  /**
   * Under a monotone clock on which the wait lasts at least the requested
   * time, a throttled request starts at least RATE_LIMIT_DELAY after the
   * previous one, so successive completions are spaced.
   */
  lemma ThrottleSpacesRequests(last: int, now: int, resumed: int)
    requires resumed >= now + Delay(last, now)
    ensures resumed >= last + RateLimitDelay
  {
  }

  /** The wait is the shortest one that achieves the spacing. */
  lemma DelayIsMinimal(last: int, now: int, w: int)
    requires w >= 0 && now + w >= last + RateLimitDelay
    ensures w >= Delay(last, now)
  {
  }

  /** The request a lookup sends: the arena URL, or `cards/named?fuzzy=<name>` by its name. */
  datatype Request = ByUrl(url: string) | ByFuzzyName(name: string)

  /** `https://api.scryfall.com/cards/arena/${mtgaId}` */
  function ArenaUrl(mtgaId: int): (u: string)
    ensures StartsWith(u, "https://api.scryfall.com/cards/arena/")
  {
    "https://api.scryfall.com/cards/arena/" + NumberToString(mtgaId)
  }

  /** Distinct arena ids are fetched from distinct addresses. */
  lemma ArenaUrlInjective(a: int, b: int)
    requires ArenaUrl(a) == ArenaUrl(b)
    ensures a == b
  {
    var p := "https://api.scryfall.com/cards/arena/";
    assert ArenaUrl(a)[|p|..] == NumberToString(a);
    assert ArenaUrl(b)[|p|..] == NumberToString(b);
    NumberToStringInjective(a, b);
  }

  /** What one HTTP exchange produced; `body` is `None` when `response.json()` fails. */
  datatype HttpResult = NetworkError | Response(status: int, body: Option<ScryfallCard>)

  predicate IsOk(status: int) {
    200 <= status <= 299
  }

  /**
   * The value getCardByMtgaId and searchCard resolve to: the transformed
   * card for an ok response whose body decodes, null otherwise (a 404, any
   * other non-ok status, a network error or a body that fails to decode).
   */
  function Outcome(r: HttpResult): (c: Option<Card>)
    ensures c.Some? <==> r.Response? && IsOk(r.status) && r.body.Some?
    ensures c.Some? ==> c.value == Transform(r.body.value)
  {
    match r
    case NetworkError => None
    case Response(status, body) =>
      if !IsOk(status) then None
      else if body.None? then None
      else Some(Transform(body.value))
  }

  /** A 404 for an arena id resolves to null. */
  lemma NotFoundIsNull(body: Option<ScryfallCard>)
    ensures Outcome(Response(404, body)) == None
  {
  }

  datatype ClientCall = Wait(ms: int) | Fetch(request: Request)

  /** The timer throttle awaits, if any. */
  function Waits(d: int): seq<ClientCall> {
    if d > 0 then [Wait(d)] else []
  }

  class ScryfallClient {
    var lastRequestTime: int
    /** Every wait and fetch so far, in order. */
    var calls: seq<ClientCall>

    constructor()
      ensures lastRequestTime == 0 && calls == []
    {
      lastRequestTime := 0;
      calls := [];
    }

    /**
     * throttle, started at clock `now` and resuming at clock `resumed`
     * (the second Date.now()): waits Delay, then records `resumed` as the
     * last request time.
     */
    method Throttle(now: int, resumed: int)
      modifies this
      ensures lastRequestTime == resumed
      ensures calls == old(calls) + Waits(Delay(old(lastRequestTime), now))
    {
      var timeSinceLastRequest := now - lastRequestTime;
      if timeSinceLastRequest < RateLimitDelay {
        calls := calls + [Wait(RateLimitDelay - timeSinceLastRequest)];
      }
      lastRequestTime := resumed;
    }

    /** getCardByMtgaId: throttle, then fetch by arena id. */
    method GetCardByMtgaId(mtgaId: int, now: int, resumed: int, response: HttpResult) returns (card: Option<Card>)
      modifies this
      ensures lastRequestTime == resumed
      ensures calls == old(calls) + Waits(Delay(old(lastRequestTime), now)) + [Fetch(ByUrl(ArenaUrl(mtgaId)))]
      ensures card == Outcome(response)
    {
      Throttle(now, resumed);
      calls := calls + [Fetch(ByUrl(ArenaUrl(mtgaId)))];
      match response
      case NetworkError =>
        return None;
      case Response(status, body) =>
        if !IsOk(status) {
          // a 404 returns null; any other status throws and the catch returns null
          return None;
        }
        if body.None? {
          return None;
        }
        return Some(Transform(body.value));
    }

    /** searchCard: throttle, then fetch by fuzzy name. */
    method SearchCard(name: string, now: int, resumed: int, response: HttpResult) returns (card: Option<Card>)
      modifies this
      ensures lastRequestTime == resumed
      ensures calls == old(calls) + Waits(Delay(old(lastRequestTime), now)) + [Fetch(ByFuzzyName(name))]
      ensures card == Outcome(response)
    {
      Throttle(now, resumed);
      calls := calls + [Fetch(ByFuzzyName(name))];
      if response.NetworkError? || !IsOk(response.status) {
        return None;
      }
      if response.body.None? {
        return None;
      }
      return Some(Transform(response.body.value));
    }
  }
}
