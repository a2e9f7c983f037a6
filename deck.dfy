/**
 * The draw pile (`Deck`): a FIFO queue of cards. A card slot may hold null, since
 * `Initialize` enqueues whatever the card factory returns.
 */
module Decks {
  import opened Wrappers

  /** The factory's cards, one per card description, in input order. */
  function CreateAll<D, T>(cardDataList: seq<D>, createCard: D -> Option<T>): (cards: seq<Option<T>>)
    ensures |cards| == |cardDataList|
    ensures forall i :: 0 <= i < |cardDataList| ==> cards[i] == createCard(cardDataList[i])
  {
    seq(|cardDataList|, i requires 0 <= i < |cardDataList| => createCard(cardDataList[i]))
  }

  class Deck<T> {
    /** The queue, front (next draw) first. */
    var cards: seq<Option<T>>

    constructor ()
      ensures cards == []
    {
      cards := [];
    }

    /** `CardsRemaining`: the number of queued cards, null slots included. */
    function CardsRemaining(): (n: nat)
      reads this
      ensures n == |cards|
      ensures n == 0 <==> cards == []
    {
      |cards|
    }

    /**
     * `Initialize`: a null or empty list leaves the deck as it was; otherwise the deck
     * becomes the factory's result for each entry, in list order, nulls included.
     */
    method Initialize<D>(cardDataList: Option<seq<D>>, createCard: D -> Option<T>)
      modifies this
      ensures cardDataList.None? || cardDataList.value == [] ==> cards == old(cards)
      ensures cardDataList.Some? && cardDataList.value != [] ==> cards == CreateAll(cardDataList.value, createCard)
    {
      if cardDataList.None? || |cardDataList.value| == 0 {
        return;
      }
      var list := cardDataList.value;
      cards := [];
      for i := 0 to |list|
        invariant cards == CreateAll(list[..i], createCard)
      {
        var card := createCard(list[i]);
        cards := cards + [card];
      }
      assert list[..|list|] == list;
    }

    /** `DrawCard`: null on an empty deck, which stays empty; otherwise the front card leaves the queue. */
    method DrawCard() returns (card: Option<T>)
      modifies this
      ensures old(cards) == [] ==> card.None? && cards == []
      ensures old(cards) != [] ==> card == old(cards)[0] && cards == old(cards)[1..]
      ensures old(cards) == [card] + cards || (old(cards) == [] && card.None?)
    {
      if |cards| == 0 {
        return None;
      }
      card := cards[0];
      cards := cards[1..];
    }

    /**
     * `AddCardToTop`: ignores null; otherwise copies the queue into a list, appends the
     * card and rebuilds the queue, so the card lands at the back, as with `AddCardToBottom`.
     */
    method AddCardToTop(card: Option<T>)
      modifies this
      ensures cards == if card.None? then old(cards) else old(cards) + [card]
    {
      if card.None? {
        return;
      }
      var tempList := cards;
      tempList := tempList + [card];
      cards := tempList;
    }

    /** `AddCardToBottom`: ignores null; otherwise enqueues the card at the back. */
    method AddCardToBottom(card: Option<T>)
      modifies this
      ensures cards == if card.None? then old(cards) else old(cards) + [card]
    {
      if card.None? {
        return;
      }
      cards := cards + [card];
    }
  }

  /**
   * Draws after `Initialize` on a new deck return the factory's cards in list order,
   * and then the deck is empty (an empty list leaves nothing to draw).
   */
  method DrawAllAfterInitialize<D, T>(cardDataList: seq<D>, createCard: D -> Option<T>)
    returns (drawn: seq<Option<T>>)
    ensures drawn == CreateAll(cardDataList, createCard)
  {
    var deck := new Deck<T>();
    deck.Initialize(Some(cardDataList), createCard);
    drawn := [];
    while deck.CardsRemaining() > 0
      invariant drawn + deck.cards == CreateAll(cardDataList, createCard)
      decreases |deck.cards|
    {
      var card := deck.DrawCard();
      drawn := drawn + [card];
    }
  }

  /**
   * A card added "to the top" of a non-empty deck is not the next one drawn: the old
   * front card is, and the added card waits at the back.
   */
  method AddToTopThenDraw<T>(deck: Deck<T>, card: T) returns (drawn: Option<T>)
    requires deck.cards != []
    modifies deck
    ensures drawn == old(deck.cards)[0]
    ensures deck.cards == old(deck.cards)[1..] + [Some(card)]
  {
    deck.AddCardToTop(Some(card));
    drawn := deck.DrawCard();
  }
}
