/**
  The saved-card references a logged-in user owns, kept by the host as
  repeated user-metadata entries: `get_user_meta($user, $key)` returns every
  value stored under `$key` in insertion order, and `add_user_meta` appends
  one more. The user's metadata is a map from key to that list.
 */
module CardStore {
  import opened Php
  import opened Stripe

  /** One saved-card reference, as the gateway stores it. */
  datatype SavedCard = SavedCard(
    customerId: string,
    cardId: string,
    brand: string,
    last4: string,
    expYear: nat,
    expMonth: nat)

  type UserMeta = map<string, seq<SavedCard>>

  /** `get_user_meta($user, key)`: every value stored under `key`, or none. */
  function Stored(meta: UserMeta, key: string): seq<SavedCard> {
    if key in meta then meta[key] else []
  }

  /** `add_user_meta($user, key, card)`: one more value under `key`, no
      deduplication, nothing else touched. The host refuses a key PHP treats
      as false (`add_metadata` returns false for it) and stores nothing. */
  function AddUserMeta(meta: UserMeta, key: string, card: SavedCard): (r: UserMeta)
    ensures Falsy(key) ==> r == meta
    ensures !Falsy(key) ==> Stored(r, key) == Stored(meta, key) + [card] && r.Keys == meta.Keys + {key}
    ensures forall k :: k != key ==> Stored(r, k) == Stored(meta, k)
  {
    if Falsy(key) then meta else meta[key := Stored(meta, key) + [card]]
  }

  /** The reference saved for a card just added to `customer`: the
      customer's id and the card's id, brand, last four digits and expiry. */
  function SavedCardFor(customer: Customer, card: Card): (s: SavedCard)
    ensures s.customerId == customer.id && s.cardId == card.id
    ensures s.brand == card.brand && s.last4 == card.last4
    ensures s.expYear == card.expYear && s.expMonth == card.expMonth
  {
    SavedCard(customer.id, card.id, card.brand, card.last4, card.expYear, card.expMonth)
  }

  /** Saving a new card under the location the gateway reads its saved cards
      from: exactly that list grows by the new reference (when the location
      is a key the host accepts) and nothing else changes. */
  function SaveNewCard(meta: UserMeta, dbLocation: string, card: SavedCard): (r: UserMeta)
    ensures !Falsy(dbLocation) ==> Stored(r, dbLocation) == Stored(meta, dbLocation) + [card]
    ensures forall k :: k != dbLocation ==> Stored(r, k) == Stored(meta, k)
  {
    AddUserMeta(meta, dbLocation, card)
  }

  /** The key the new-card branch passes as the code stands: the property
      `stripe_db_location` of the gateway, which nothing assigns, so PHP
      reads it as null (the empty key here). */
  const UnsetDbLocation: string := ""

  /** The new-card save as written: the unset property is passed as the key,
      which the host refuses, so nothing is stored at all. */
  function SaveNewCardAsWritten(meta: UserMeta, card: SavedCard): (r: UserMeta)
    ensures r == meta
  {
    AddUserMeta(meta, UnsetDbLocation, card)
  }

  /** As written, the saved cards read back from the configured location do
      not include the card just added, while the corrected save adds it. */
  lemma NewCardLostAsWritten(meta: UserMeta, dbLocation: string, card: SavedCard)
    requires !Falsy(dbLocation)
    ensures Stored(SaveNewCardAsWritten(meta, card), dbLocation) == Stored(meta, dbLocation)
    ensures Stored(SaveNewCard(meta, dbLocation, card), dbLocation) != Stored(meta, dbLocation)
  {
    assert |Stored(SaveNewCard(meta, dbLocation, card), dbLocation)| == |Stored(meta, dbLocation)| + 1;
  }

  /** A concrete instance: a user with one saved card under "_stripe_card"
      adds a second one; the list the gateway reads still has one entry. */
  lemma NewCardLostExample()
    ensures var c0 := SavedCard("cus_1", "card_1", "Visa", "4242", 2030, 1);
            var c1 := SavedCard("cus_1", "card_2", "Visa", "1881", 2031, 2);
            var meta: UserMeta := map["_stripe_card" := [c0]];
            |Stored(SaveNewCardAsWritten(meta, c1), "_stripe_card")| == 1
  {
    var c0 := SavedCard("cus_1", "card_1", "Visa", "4242", 2030, 1);
    var c1 := SavedCard("cus_1", "card_2", "Visa", "1881", 2031, 2);
    var meta: UserMeta := map["_stripe_card" := [c0]];
    NewCardLostAsWritten(meta, "_stripe_card", c1);
  }

  /** `$this->stripe_customer_info[$chosen]['card_id']`: the card id of the
      saved card whose index the posted text names, or PHP's null when the
      text names no index of the list. */
  function ChosenCardId(cards: seq<SavedCard>, chosen: string): (e: Entry)
    ensures e != Absent
    ensures e.Present? <==> IndexKey(chosen).Some? && IndexKey(chosen).value < |cards|
  {
    match IndexKey(chosen)
    case Some(i) => if i < |cards| then Present(cards[i].cardId) else Null
    case None => Null
  }

  /** The radio value rendered for saved card `i` selects card `i`, and the
      only text that selects card `i` is that value; "new" selects no saved
      card. */
  lemma ChosenCardRoundTrip(cards: seq<SavedCard>, i: nat, chosen: string)
    requires i < |cards|
    ensures ChosenCardId(cards, DecimalText(i)) == Present(cards[i].cardId)
    ensures IndexKey(chosen) == Some(i) ==> chosen == DecimalText(i)
    ensures ChosenCardId(cards, "new") == Null
  {
    IndexKeyRoundTrip(i, chosen);
    assert !IsDigit("new"[0]);
  }
}
