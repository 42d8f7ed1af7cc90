/** The card states of one session: finding a card by id and what a purchase does to it. */
module Ledger {
  import opened Wrappers
  import opened Game

  /** Where the state of card `cardId` sits in `cs`, comparing ids by value. */
  function IndexOfCard(cs: seq<CardState>, cardId: int): (r: Option<nat>)
    ensures r.Some? ==> r.value < |cs| && cs[r.value].card.id == cardId
    ensures r.Some? ==> forall j :: 0 <= j < r.value ==> cs[j].card.id != cardId
    ensures r.None? <==> forall j :: 0 <= j < |cs| ==> cs[j].card.id != cardId
  {
    if |cs| == 0 then None
    else if cs[0].card.id == cardId then Some(0)
    else match IndexOfCard(cs[1..], cardId)
      case None => None
      case Some(k) => Some(k + 1)
  }

  /** Bounds of the values for which `Long.valueOf` hands out one shared object. */
  const LONG_CACHE_LOW: int := -128
  const LONG_CACHE_HIGH: int := 127

  /** `a == b` on two `Long` objects boxed independently compares references: it holds
      only for equal values that come from the shared cache. */
  predicate SameBoxedLong(a: int, b: int) {
    a == b && LONG_CACHE_LOW <= a <= LONG_CACHE_HIGH
  }

  /** The card lookup as written, with `getId() == cardId` on boxed ids. */
  function IndexOfCardAsWritten(cs: seq<CardState>, cardId: int): (r: Option<nat>)
    ensures r.Some? ==> r.value < |cs| && cs[r.value].card.id == cardId
    ensures r.Some? ==> LONG_CACHE_LOW <= cardId <= LONG_CACHE_HIGH
    ensures r.None? <==>
      (cardId < LONG_CACHE_LOW || LONG_CACHE_HIGH < cardId || forall j :: 0 <= j < |cs| ==> cs[j].card.id != cardId)
  {
    if |cs| == 0 then None
    else if SameBoxedLong(cs[0].card.id, cardId) then Some(0)
    else match IndexOfCardAsWritten(cs[1..], cardId)
      case None => None
      case Some(k) => Some(k + 1)
  }

  /** A session holding card 200 cannot buy or pay for it through the lookup as written,
      while the lookup by value finds it. */
  lemma BoxedLookupMissesCard()
    ensures var cs := [CardState(CompanyCard(200, 100, [10]), 0, None, None)];
      IndexOfCardAsWritten(cs, 200) == None && IndexOfCard(cs, 200) == Some(0)
  {
  }

  /** For ids inside the cache range the two lookups agree. */
  lemma {:induction false} LookupsAgreeInCache(cs: seq<CardState>, cardId: int)
    requires LONG_CACHE_LOW <= cardId <= LONG_CACHE_HIGH
    ensures IndexOfCardAsWritten(cs, cardId) == IndexOfCard(cs, cardId)
  {
    if |cs| > 0 && cs[0].card.id != cardId {
      LookupsAgreeInCache(cs[1..], cardId);
    }
  }

  /** The fine a purchase records, read from the catalog at the card's current level. */
  function FineAt(card: CompanyCard, level: int): (r: Result<int, Error>)
    ensures r.Ok? <==> 0 <= level < |card.fines|
    ensures r.Ok? ==> r.value == card.fines[level]
    ensures r.Err? ==> r.error == IndexOutOfBounds
  {
    if 0 <= level < |card.fines| then Ok(card.fines[level]) else Err(IndexOutOfBounds)
  }

  /** The ownership record of a card is consistent: it has an owner and a fine exactly
      when it has been bought at least once. */
  predicate OwnershipConsistent(cs: CardState) {
    && cs.level >= 0
    && (cs.ownerName.Some? <==> cs.level >= 1)
    && (cs.ownerName.Some? ==> cs.currentFine.Some?)
  }

  /** The purchase in `buyCard`: the card gains a level, the buyer and the fine for the level it had. */
  function Purchased(cs: CardState, buyer: Name, fine: int): (r: CardState)
    requires cs.level >= 0
    ensures r.level == cs.level + 1 && r.ownerName == Some(buyer) && r.currentFine == Some(fine)
    ensures r.card == cs.card
    ensures OwnershipConsistent(r)
  {
    cs.(currentFine := Some(fine), level := cs.level + 1, ownerName := Some(buyer))
  }
}
