/**
 * The draw pile of the current age. A reset builds it from the age's card
 * catalogue: every card gets the age's back, the pile is shuffled, three
 * cards are set aside, the third age adds three guild cards, and every card
 * is then restamped face up with a fresh uid.
 *
 * The random choices are nondeterministic in-range indices; the uid
 * generator is a supply of consecutive numbers.
 */
module CardDeck {
  import opened Models

  /** A source of fresh card uids. */
  class IdSupply {
    var next: nat

    constructor(start: nat)
      ensures next == start
    {
      next := start;
    }

    method Fresh() returns (id: CardUid)
      modifies this
      ensures id == old(next) && next == old(next) + 1
    {
      id := next;
      next := next + 1;
    }
  }

  /** A card list other code holds on to, such as the shared guild catalogue. */
  class CardPile {
    var cards: seq<Card>

    constructor(cards: seq<Card>)
      ensures this.cards == cards
    {
      this.cards := cards;
    }
  }

  /** The back every catalogue card of an age is given. */
  function BackOf(age: Age): FlippedCardType {
    match age
    case Age1 => Age1Back
    case Age2 => Age2Back
    case Age3 => Age3PinkBack
  }

  /** The catalogue with every card given the same back. */
  function WithBack(cards: seq<Card>, back: FlippedCardType): (r: seq<Card>)
    ensures |r| == |cards|
    ensures forall i :: 0 <= i < |cards| ==> r[i] == cards[i].(reverse := back)
  {
    seq(|cards|, i requires 0 <= i < |cards| => cards[i].(reverse := back))
  }

  /** How many cards a successful reset leaves in the pile. */
  function ResetSize(age: Age, catalogueSize: nat): int {
    catalogueSize - 3 + (if age == Age3 then 3 else 0)
  }

  /** Draws the whole list at random into a new one: a permutation of it. */
  method Shuffle(deck: seq<Card>) returns (newDeck: seq<Card>)
    ensures |newDeck| == |deck|
    ensures multiset(newDeck) == multiset(deck)
  {
    var left := deck;
    newDeck := [];
    while |left| > 0
      invariant multiset(newDeck) + multiset(left) == multiset(deck)
      invariant |newDeck| + |left| == |deck|
    {
      var index :| 0 <= index < |left|;
      newDeck := newDeck + [left[index]];
      left := Splice(left, index);
    }
  }

  /** Shuffling a list someone else holds: the permutation is returned and the held list is emptied. */
  method ShufflePile(pile: CardPile) returns (newDeck: seq<Card>)
    modifies pile
    ensures |newDeck| == |old(pile.cards)|
    ensures multiset(newDeck) == multiset(old(pile.cards))
    ensures pile.cards == []
  {
    newDeck := Shuffle(pile.cards);
    pile.cards := [];
  }

  class CardDeckController {
    var cards: seq<Card>
    /** The card catalogue of each age (fixtures). */
    const catalogue: Age -> seq<Card>
    /** The guild cards added in the third age. */
    const guild: CardPile
    const ids: IdSupply

    constructor(catalogue: Age -> seq<Card>, guild: CardPile, ids: IdSupply)
      ensures cards == []
      ensures this.catalogue == catalogue && this.guild == guild && this.ids == ids
    {
      cards := [];
      this.catalogue := catalogue;
      this.guild := guild;
      this.ids := ids;
    }

    /** A copy of the pile. */
    function Deck(): (d: seq<Card>)
      reads this
      ensures |d| == DeckSize()
    {
      cards
    }

    function DeckSize(): nat
      reads this
    {
      |cards|
    }

    /** Removes and returns the card at a random index; fails on an empty pile. */
    method Draw() returns (r: Result<Card>)
      modifies this
      ensures old(cards) == [] ==> r == Err("There are no more cards in the deck to draw.") && cards == old(cards)
      ensures old(cards) != [] ==>
        && r.Ok?
        && exists i :: 0 <= i < |old(cards)| && r.value == old(cards)[i] && cards == Splice(old(cards), i)
      ensures r.Ok? ==> multiset(cards) + multiset{r.value} == multiset(old(cards)) && |cards| == |old(cards)| - 1
    {
      if |cards| == 0 {
        return Err("There are no more cards in the deck to draw.");
      }
      var index :| 0 <= index < |cards|;
      r := Ok(cards[index]);
      cards := Splice(cards, index);
    }

    /** Three draws whose cards are thrown away; fails once the pile runs out. */
    method DiscardThree() returns (o: Outcome)
      modifies this
      ensures o.Done? <==> |old(cards)| >= 3
      ensures o.Failed? ==> cards == []
      ensures o.Done? ==> |cards| == |old(cards)| - 3 && multiset(cards) <= multiset(old(cards))
    {
      var k := 0;
      while k < 3
        invariant 0 <= k <= 3
        invariant |cards| == |old(cards)| - k
        invariant multiset(cards) <= multiset(old(cards))
      {
        var r := Draw();
        if r.Err? {
          return Failed(r.message);
        }
        k := k + 1;
      }
      return Done;
    }

    /** Gives every card, in order, `faceDown` false and the next fresh uid. */
    method Restamp()
      modifies this, ids
      ensures |cards| == |old(cards)|
      ensures ids.next == old(ids.next) + |cards|
      ensures forall i :: 0 <= i < |cards| ==> cards[i] == old(cards)[i].(faceDown := false, uid := old(ids.next) + i)
    {
      var stamped: seq<Card> := [];
      var i := 0;
      while i < |cards|
        invariant 0 <= i <= |cards| && cards == old(cards)
        invariant ids.next == old(ids.next) + i && |stamped| == i
        invariant forall k :: 0 <= k < i ==> stamped[k] == cards[k].(faceDown := false, uid := old(ids.next) + k)
      {
        var id := ids.Fresh();
        stamped := stamped + [cards[i].(faceDown := false, uid := id)];
        i := i + 1;
      }
      cards := stamped;
    }

    /**
     * Rebuilds the pile for an age. The third age draws its three guild
     * cards from a shuffled copy of the guild catalogue, which is left as
     * it was (see `ResetEmptyingGuild` for the code as written).
     *
     * `kept` are the catalogue cards (with their back) that survive the
     * three discards and `extra` the guild cards; the new pile is a
     * permutation of both, restamped with consecutive fresh uids.
     */
    method Reset(age: Age) returns (o: Outcome, ghost kept: seq<Card>, ghost extra: seq<Card>)
      requires age == Age3 ==> |guild.cards| >= 3
      modifies this, ids
      ensures o.Done? <==> |catalogue(age)| >= 3
      ensures o.Failed? ==> cards == [] && ids.next == old(ids.next)
      ensures o.Done? ==>
        && |cards| == ResetSize(age, |catalogue(age)|)
        && |kept| == |catalogue(age)| - 3
        && multiset(kept) <= multiset(WithBack(catalogue(age), BackOf(age)))
        && (age != Age3 ==> extra == [])
        && (age == Age3 ==> |extra| == 3 && multiset(extra) <= multiset(guild.cards))
        && ids.next == old(ids.next) + |cards|
        && exists pre: seq<Card> ::
             && multiset(pre) == multiset(kept) + multiset(extra)
             && |pre| == |cards|
             && forall i :: 0 <= i < |cards| ==> cards[i] == pre[i].(faceDown := false, uid := old(ids.next) + i)
    {
      kept, extra := [], [];
      cards := WithBack(catalogue(age), BackOf(age));
      cards := Shuffle(cards);
      o := DiscardThree();
      if o.Failed? {
        return;
      }
      kept := cards;
      if age == Age3 {
        var guildCards := Shuffle(guild.cards);
        var chosen := guildCards[..3];
        assert guildCards == chosen + guildCards[3..];
        extra := chosen;
        cards := cards + chosen;
        cards := Shuffle(cards);
      }
      ghost var pre := cards;
      Restamp();
      assert multiset(pre) == multiset(kept) + multiset(extra);
    }

    /**
     * The third-age reset as written: the shuffle of the guild catalogue
     * empties the shared catalogue itself.
     */
    method ResetEmptyingGuild(age: Age) returns (o: Outcome)
      requires age == Age3 ==> |guild.cards| >= 3
      modifies this, ids, guild
      ensures o.Done? <==> |catalogue(age)| >= 3
      ensures o.Done? ==> |cards| == ResetSize(age, |catalogue(age)|)
      ensures o.Done? && age == Age3 ==> guild.cards == []
      ensures age != Age3 ==> guild.cards == old(guild.cards)
    {
      cards := WithBack(catalogue(age), BackOf(age));
      cards := Shuffle(cards);
      o := DiscardThree();
      if o.Failed? {
        return;
      }
      if age == Age3 {
        var guildCards := ShufflePile(guild);
        cards := cards + guildCards[..3];
        cards := Shuffle(cards);
      }
      Restamp();
    }
  }

  /**
   * With the code as written, the second third-age reset that shares the
   * guild catalogue finds it empty, so the three guild cards it reads do
   * not exist.
   */
  method SecondThirdAgeResetFindsNoGuildCards(d1: CardDeckController, d2: CardDeckController)
    requires d1.guild == d2.guild && |d1.guild.cards| >= 3 && |d1.catalogue(Age3)| >= 3
    requires d1 != d2
    modifies d1, d2, d1.ids, d1.guild
    ensures |d2.guild.cards| < 3
  {
    var o := d1.ResetEmptyingGuild(Age3);
  }

  /** With the copying shuffle, every third-age reset finds the guild catalogue intact. */
  method ThirdAgeResetKeepsGuildCards(d: CardDeckController) returns (o: Outcome)
    requires |d.guild.cards| >= 3
    modifies d, d.ids
    ensures d.guild.cards == old(d.guild.cards)
  {
    ghost var kept, extra;
    o, kept, extra := d.Reset(Age3);
  }
}
