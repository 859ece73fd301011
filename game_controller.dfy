/**
 * One game: two players, whose turn it is, the war track, the science
 * tokens, the draw pile and the pyramid, and the age being played. The
 * game decides the winner, handles a click on a pyramid card (finding it,
 * checking it is exposed, choosing how it is paid for, moving it to the
 * buyer and running its purchase effect) and dispatches the effects.
 */
module GameControl {
  import opened Models
  import opened PlayerControl
  import opened WarControl
  import opened TurnControl
  import opened ScienceTokens
  import opened CardDeck
  import opened CardStage

  datatype Winner = WinA | WinB | Tie

  /** The snapshot sent to both players. */
  datatype GameState = GameState(
    roomUid: string,
    playerA: PlayerView,
    playerB: PlayerView,
    turn: Letter,
    inProgress: bool,
    cardStage: seq<seq<ViewCell>>,
    warStatus: WarStatus,
    scienceTokens: seq<Option<ScienceProgressToken>>)

  /** How a clicked card gets paid for, in order of preference. */
  datatype Payment = ByLink | Outright | ByTrade | Unaffordable

  /** The payment route for a card: a held link, else own production, else trading, else none. */
  function PaymentFor(card: Card, player: PlayerController, other: PlayerController): (route: Payment)
    reads player, other
    ensures route == ByLink <==>
      card.buyWithLink.Some? && exists i :: 0 <= i < |player.cards| && player.cards[i].providesLink == card.buyWithLink
    ensures route == Outright ==> card.coinCost <= player.coins && player.TradingCost(card, other) == 0
    ensures route == Unaffordable ==> card.coinCost + player.TradingCost(card, other) > player.coins
  {
    TradeCostZeroIffGreedy(card.resourceCost, player.OwnPools(), player.resourceDiscounts, Resources(other.cards));
    if card.buyWithLink.Some? && player.HasLinkSymbol(card.buyWithLink.value) then ByLink
    else if player.Affordable(card) then Outright
    else if card.coinCost + player.TradingCost(card, other) <= player.coins then ByTrade
    else Unaffordable
  }

  /** The coins a payment route takes. */
  function Charge(card: Card, route: Payment, player: PlayerController, other: PlayerController): (c: nat)
    reads player, other
    ensures route == Outright || route == ByTrade ==> card.coinCost <= c
    ensures c <= card.coinCost + player.TradingCost(card, other)
  {
    match route
    case ByLink => 0
    case Outright => card.coinCost
    case ByTrade => card.coinCost + player.TradingCost(card, other)
    case Unaffordable => 0
  }

  /**
   * A purchase never costs more than the buyer has, so the floor at zero
   * never applies; and buying outright costs what trading would have,
   * since a cost the player covers needs no trading.
   */
  lemma PaymentIsExact(card: Card, player: PlayerController, other: PlayerController)
    ensures Charge(card, PaymentFor(card, player, other), player, other) <= player.coins
    ensures PaymentFor(card, player, other) == Outright ==>
      Charge(card, Outright, player, other) == card.coinCost + player.TradingCost(card, other)
  {
    TradeCostZeroIffGreedy(card.resourceCost, player.OwnPools(), player.resourceDiscounts, Resources(other.cards));
  }

  /** The discounts a resource-discount card records: one coin per listed resource. */
  function OneCoinDiscounts(rs: seq<Resource>): (ds: seq<ResourceDiscount>)
    ensures |ds| == |rs|
    ensures forall i :: 0 <= i < |rs| ==> ds[i] == ResourceDiscount(rs[i], 1)
  {
    if rs == [] then [] else OneCoinDiscounts(rs[..|rs| - 1]) + [ResourceDiscount(rs[|rs| - 1], 1)]
  }

  /** After a discount card, a listed resource with no earlier discount trades at 1 coin. */
  lemma DiscountCardPricesAtOne(r: Resource, rs: seq<Resource>, ds: seq<ResourceDiscount>, opponent: seq<Resource>)
    requires r in rs
    requires forall k :: 0 <= k < |ds| ==> ds[k].kind != r
    ensures Price(r, ds + OneCoinDiscounts(rs), opponent) == 1
  {
    var all := ds + OneCoinDiscounts(rs);
    var i :| 0 <= i < |rs| && rs[i] == r;
    assert all[|ds| + i].kind == r;
    var d := FirstDiscount(all, r);
    var k :| 0 <= k < |all| && all[k] == d.value && d.value.kind == r
             && forall m :: 0 <= m < k ==> all[m].kind != r;
    assert k >= |ds|;
    assert all[k] == ResourceDiscount(rs[k - |ds|], 1);
  }

  /** The coins a purchase effect gives its buyer, judged on the buyer's cards and wonders after the purchase. */
  function EffectCoins(e: Effect, cards: seq<Card>, wonders: seq<Wonder>): nat {
    match e
    case GrantCoins(c) => c
    case CoinsPerCardType(k, types) => PerCardTypeTotal(k, types, cards)
    case CoinsPerWonder(k) => |WondersClaimed(wonders)| * k
    case _ => 0
  }

  predicate IsCoinEffect(e: Effect) {
    e.GrantCoins? || e.CoinsPerCardType? || e.CoinsPerWonder?
  }

  /**
   * The winner, by precedence: a war victory, then six different science
   * symbols (A before B), then, once `over` (the third age's pyramid is
   * empty), the point totals with the war's points; otherwise none yet.
   */
  function Decide(status: WarStatus, scienceA: nat, scienceB: nat, over: bool, pointsA: int, pointsB: int): (w: Option<Winner>)
    ensures status == AVictory ==> w == Some(WinA)
    ensures status == BVictory ==> w == Some(WinB)
    ensures status.Score? && scienceA >= 6 ==> w == Some(WinA)
    ensures status.Score? && scienceA < 6 && scienceB >= 6 ==> w == Some(WinB)
    ensures w.None? <==> status.Score? && scienceA < 6 && scienceB < 6 && !over
    ensures w == Some(Tie) <==> status.Score? && scienceA < 6 && scienceB < 6 && over && pointsA == pointsB
    ensures status.Score? && scienceA < 6 && scienceB < 6 && over ==>
      (w == Some(WinA) <==> pointsA > pointsB) && (w == Some(WinB) <==> pointsA < pointsB)
  {
    if status == AVictory then Some(WinA)
    else if status == BVictory then Some(WinB)
    else if scienceA >= 6 then Some(WinA)
    else if scienceB >= 6 then Some(WinB)
    else if over then
      if pointsA == pointsB then Some(Tie)
      else if pointsA > pointsB then Some(WinA)
      else Some(WinB)
    else None
  }

  /** Both players' looting tiers and coins. */
  datatype Looting = Looting(tierA: nat, coinsA: nat, tierB: nat, coinsB: nat)

  /**
   * The players' looting tiers and coins after a war update, from their
   * tiers and coins before it: nothing changes once the war is won;
   * otherwise each known player follows `WarProgress` once, and for an
   * unknown buyer uid (both lookups give B) B follows it twice and A not at all.
   */
  function Looted(status: WarStatus, known: bool, before: Looting): Looting
  {
    if !status.Score? then
      before
    else if known then
      var a := WarProgress(A, before.tierA, status.value);
      var b := WarProgress(B, before.tierB, status.value);
      Looting(a.tier, Max0(before.coinsA - a.charge), b.tier, Max0(before.coinsB - b.charge))
    else
      var first := WarProgress(B, before.tierB, status.value);
      var second := WarProgress(B, first.tier, status.value);
      Looting(before.tierA, before.coinsA, second.tier, Max0(Max0(before.coinsB - first.charge) - second.charge))
  }

  function NextOf(age: Age): Age {
    match age
    case Age1 => Age2
    case Age2 => Age3
    case Age3 => Age3
  }

  class GameController {
    const roomUid: string
    const playerA: PlayerController
    const playerB: PlayerController
    const turn: TurnController
    const war: WarController
    const scienceTokens: ScienceTokenController
    const cardDeck: CardDeckController
    const cardStage: CardStageController
    var age: Age

    ghost predicate Valid()
      reads this, playerA, playerB, cardStage, cardDeck, cardDeck.guild
    {
      PlayersValid() && StageValid()
    }

    /** Two distinct players, A and B, both on a looting tier, known to the turn controller. */
    ghost predicate PlayersValid()
      reads this, playerA, playerB
    {
      && playerA != playerB
      && playerA.uid != playerB.uid
      && playerA.letter == A && playerB.letter == B
      && playerA.Valid() && playerB.Valid()
      && turn.playerAUid == playerA.uid && turn.playerBUid == playerB.uid
    }

    /** The pyramid draws from this game's pile, and every age can be set up again. */
    ghost predicate StageValid()
      reads this, cardStage, cardDeck, cardDeck.guild
    {
      && cardStage.cards == cardDeck && cardStage.Valid()
      && (forall a :: TemplatesRectangular(cardStage.templates(a)))
      && |cardDeck.guild.cards| >= 3
    }

    /**
     * A new game in the first age: both players fresh, A to play, the war
     * track at 0, the tokens dealt, the pile reset and the pyramid set.
     * The first age's catalogue must be large enough for it (with a
     * smaller one the source throws out of the constructor), and the guild
     * catalogue must hold the three cards the third age will add.
     */
    constructor(
      roomUid: string,
      uidA: PlayerUid, nameA: string,
      uidB: PlayerUid, nameB: string,
      catalogue: Age -> seq<Card>, guild: CardPile, templates: Age -> seq<string>, ids: IdSupply,
      updateRule: (WarStatus, int) -> WarStatus, pointsRule: (WarStatus, Letter) -> int)
      requires uidA != uidB
      requires |guild.cards| >= 3
      requires forall a :: TemplatesRectangular(templates(a))
      requires |catalogue(Age1)| >= 3 && TotalDraws(templates(Age1)) <= |catalogue(Age1)| - 3
      modifies ids
      ensures Valid()
      ensures age == Age1 && turn.turn == A && turn.hookCalls == 1 && war.status == Score(0)
      ensures playerA.cards == [] && playerA.coins == 7 && playerB.cards == [] && playerB.coins == 7
      ensures |scienceTokens.onBoard| == 5 && |scienceTokens.allTokens| == 5
      ensures |cardStage.stage| == |templates(Age1)| && RowsFollow(cardStage.stage, templates(Age1))
      ensures |cardDeck.cards| == |catalogue(Age1)| - 3 - TotalDraws(templates(Age1))
      ensures this.roomUid == roomUid
      ensures playerA.uid == uidA && playerA.name == nameA && playerB.uid == uidB && playerB.name == nameB
      ensures && playerA.scienceTokens == [] && playerA.wonders == [] && playerA.resourceDiscounts == []
              && playerA.warLootingStatus == 0
      ensures && playerB.scienceTokens == [] && playerB.wonders == [] && playerB.resourceDiscounts == []
              && playerB.warLootingStatus == 0
    {
      var a := new PlayerController(uidA, nameA, A);
      var b := new PlayerController(uidB, nameB, B);
      var t := new TurnController(a.uid, b.uid);
      var w := new WarController(updateRule, pointsRule);
      var st := DealtScienceTokens();
      t.Reset();
      w.Reset();
      var deck, stage := FirstAgeTable(catalogue, guild, templates, ids);
      this.roomUid := roomUid;
      playerA, playerB, turn, war := a, b, t, w;
      scienceTokens, cardDeck, cardStage := st, deck, stage;
      age := Age1;
    }

    /**
     * As written, the snapshot of a game nobody has won reports it as not
     * in progress; a new game is one.
     */
    lemma NewGameReportedAsNotInProgress()
      requires age == Age1 && war.status == Score(0)
      requires playerA.cards == [] && playerA.scienceTokens == [] && playerB.cards == [] && playerB.scienceTokens == []
      ensures InProgress() && !State().inProgress
    {
      assert playerA.ScienceSymbolCount() == 0;
      assert playerB.ScienceSymbolCount() == 0;
    }

    /**
     * The snapshot as written: `inProgress` is true exactly when there is
     * a winner, so a running game reports false.
     */
    function State(): (s: GameState)
      reads this, playerA, playerB, turn, war, cardStage, scienceTokens
      ensures s.inProgress <==> GetWinner().Some?
      ensures s.turn == turn.turn && s.warStatus == war.status
    {
      GameState(roomUid, playerA.View(), playerB.View(), turn.AsLetter(), GetWinner() != None,
                cardStage.View(), war.status, scienceTokens.Board())
    }

    /** Whether the game is still being played: no one has won yet. */
    function InProgress(): (b: bool)
      reads this, playerA, playerB, war, cardStage
      ensures b <==> GetWinner().None?
      ensures b <==>
        && war.status.Score?
        && playerA.ScienceSymbolCount() < 6 && playerB.ScienceSymbolCount() < 6
        && !(age == Age3 && cardStage.IsEmpty())
    {
      GetWinner() == None
    }

    /** A player's final score: their own victory points plus the war track's points for their side. */
    function TotalPoints(p: PlayerController, side: Letter): (t: int)
      reads p, war
      ensures t >= p.coins / 3 + war.VictoryPointsForPlayer(side)
    {
      p.Points() + war.VictoryPointsForPlayer(side)
    }

    /** The winner so far: `Decide` on the war, both science counts, the end of the third age and the totals. */
    function GetWinner(): (w: Option<Winner>)
      reads this, playerA, playerB, war, cardStage
      ensures var over := age == Age3 && cardStage.IsEmpty();
        w == Some(WinA) <==>
          || war.status == AVictory
          || (war.status.Score? && playerA.ScienceSymbolCount() >= 6)
          || (war.status.Score? && playerA.ScienceSymbolCount() < 6 && playerB.ScienceSymbolCount() < 6 && over
              && TotalPoints(playerA, A) > TotalPoints(playerB, B))
      ensures var over := age == Age3 && cardStage.IsEmpty();
        w == Some(WinB) <==>
          || war.status == BVictory
          || (war.status.Score? && playerA.ScienceSymbolCount() < 6 && playerB.ScienceSymbolCount() >= 6)
          || (war.status.Score? && playerA.ScienceSymbolCount() < 6 && playerB.ScienceSymbolCount() < 6 && over
              && TotalPoints(playerA, A) < TotalPoints(playerB, B))
      ensures w == Some(Tie) <==>
        && war.status.Score? && playerA.ScienceSymbolCount() < 6 && playerB.ScienceSymbolCount() < 6
        && age == Age3 && cardStage.IsEmpty() && TotalPoints(playerA, A) == TotalPoints(playerB, B)
    {
      Decide(war.status, playerA.ScienceSymbolCount(), playerB.ScienceSymbolCount(),
             age == Age3 && cardStage.IsEmpty(), TotalPoints(playerA, A), TotalPoints(playerB, B))
    }

    /** The player with the uid; any other uid gives B. */
    function GetPlayer(uid: PlayerUid): (p: PlayerController)
      reads this
      ensures uid == playerA.uid ==> p == playerA
      ensures uid != playerA.uid ==> p == playerB
    {
      if uid == playerA.uid then playerA else playerB
    }

    /** The opponent of the player with the uid; any other uid gives B as well. */
    function GetOtherPlayer(uid: PlayerUid): (p: PlayerController)
      reads this
      ensures uid == playerB.uid ==> p == playerA
      ensures uid != playerB.uid ==> p == playerB
    {
      if uid == playerB.uid then playerA else playerB
    }

    /** With distinct players, buyer and opponent differ exactly for the two players' uids. */
    lemma BuyerAndOpponentDifferForKnownUids(uid: PlayerUid)
      requires playerA != playerB && playerA.uid != playerB.uid
      ensures GetPlayer(uid) != GetOtherPlayer(uid) <==> uid == playerA.uid || uid == playerB.uid
      ensures uid != playerA.uid && uid != playerB.uid ==> GetPlayer(uid) == playerB == GetOtherPlayer(uid)
    {
    }

    /**
     * Steps to the next age and rebuilds pile and pyramid for it. The third
     * age has no successor: the call fails and nothing changes. A reset or
     * set that fails does so after the age has advanced.
     */
    method NextAge() returns (o: Outcome)
      requires Valid()
      modifies this, cardDeck, cardDeck.ids, cardStage
      ensures Valid()
      ensures old(age) == Age3 ==>
        o == Failed("No more ages.") && age == Age3
        && cardDeck.cards == old(cardDeck.cards) && cardStage.stage == old(cardStage.stage)
      ensures old(age) != Age3 ==>
        && age == NextOf(old(age))
        && (o.Done? <==>
              |cardDeck.catalogue(age)| >= 3 && TotalDraws(cardStage.templates(age)) <= ResetSize(age, |cardDeck.catalogue(age)|))
      ensures o.Done? ==>
        && |cardStage.stage| == |cardStage.templates(age)|
        && RowsFollow(cardStage.stage, cardStage.templates(age))
        && |cardDeck.cards| == ResetSize(age, |cardDeck.catalogue(age)|) - TotalDraws(cardStage.templates(age))
    {
      if age == Age3 {
        return Failed("No more ages.");
      }
      age := if age == Age1 then Age2 else Age3;
      o := SetUpAge(cardDeck, cardStage, age);
    }

    /** Both players' looting tiers and coins, as `Looted` reads and writes them. */
    function Loot(): Looting
      reads this, playerA, playerB
    {
      Looting(playerA.warLootingStatus, playerA.coins, playerB.warLootingStatus, playerB.coins)
    }

    /** The player a call for `uid` cannot touch unless it moves the war. */
    function Bystander(uid: PlayerUid): PlayerController
      reads this
    {
      if uid == playerA.uid then playerB else playerA
    }

    /** The buyer's share of a war update: `-points` when the buyer is A. */
    function SignedPoints(uid: PlayerUid, points: int): (d: int)
      requires playerA.letter == A && playerB.letter == B
      reads this
      ensures uid == playerA.uid ==> d == -points
      ensures uid != playerA.uid ==> d == points
    {
      if GetPlayer(uid).letter == A then -points else points
    }

    /**
     * Moves the war track by the buyer's signed points; unless that ends
     * the war, both players' looting tiers follow the new status (an
     * unknown uid updates B twice and A never).
     */
    method ProcessArmyPoints(uid: PlayerUid, points: int)
      requires Valid()
      modifies war, playerA, playerB
      ensures Valid()
      ensures war.status == war.updateRule(old(war.status), SignedPoints(uid, points))
      ensures HoldingsKept(playerA) && HoldingsKept(playerB)
      ensures !war.status.Score? ==> unchanged(playerA, playerB)
      ensures war.status.Score? && (uid == playerA.uid || uid == playerB.uid) ==>
        && playerA.warLootingStatus == WarProgress(A, old(playerA.warLootingStatus), war.status.value).tier
        && playerA.coins == Max0(old(playerA.coins) - WarProgress(A, old(playerA.warLootingStatus), war.status.value).charge)
        && playerB.warLootingStatus == WarProgress(B, old(playerB.warLootingStatus), war.status.value).tier
        && playerB.coins == Max0(old(playerB.coins) - WarProgress(B, old(playerB.warLootingStatus), war.status.value).charge)
      ensures Loot() == Looted(war.status, uid == playerA.uid || uid == playerB.uid, old(Loot()))
      ensures war.status.Score? && uid != playerA.uid && uid != playerB.uid ==>
        && unchanged(playerA)
        && playerB.warLootingStatus
           == WarProgress(B, WarProgress(B, old(playerB.warLootingStatus), war.status.value).tier, war.status.value).tier
        && playerB.coins
           == Max0(Max0(old(playerB.coins) - WarProgress(B, old(playerB.warLootingStatus), war.status.value).charge)
                   - WarProgress(B, WarProgress(B, old(playerB.warLootingStatus), war.status.value).tier, war.status.value).charge)
    {
      var player := GetPlayer(uid);
      var otherPlayer := GetOtherPlayer(uid);
      assert uid == playerA.uid ==> player == playerA && otherPlayer == playerB;
      assert uid != playerA.uid ==> player == playerB;
      var multiplier := 1;
      if player.letter == A {
        multiplier := -1;
      }
      war.UpdateStatus(multiplier * points);
      if war.status != AVictory && war.status != BVictory {
        player.UpdateWarProgress(war.status.value);
        otherPlayer.UpdateWarProgress(war.status.value);
      }
    }

    /** Records a 1-coin discount for each listed resource, in order. */
    method ApplyResourceDiscount(uid: PlayerUid, resources: seq<Resource>)
      requires Valid()
      modifies playerA, playerB
      ensures Valid()
      ensures GetPlayer(uid).resourceDiscounts == old(GetPlayer(uid).resourceDiscounts) + OneCoinDiscounts(resources)
      ensures AllButDiscountsKept(GetPlayer(uid))
      ensures unchanged(Bystander(uid))
    {
      var player := GetPlayer(uid);
      var i := 0;
      while i < |resources|
        invariant 0 <= i <= |resources|
        invariant player.resourceDiscounts == old(player.resourceDiscounts) + OneCoinDiscounts(resources[..i])
        invariant AllButDiscountsKept(player)
        invariant unchanged(Bystander(uid))
      {
        assert resources[..i + 1][..i] == resources[..i];
        player.ApplyResourceDiscount(resources[i], 1);
        i := i + 1;
      }
      assert resources[..i] == resources;
    }

    method ProcessCoinCard(uid: PlayerUid, coins: nat)
      requires Valid()
      modifies playerA, playerB
      ensures Valid()
      ensures GetPlayer(uid).coins == old(GetPlayer(uid).coins) + coins
      ensures AllButCoinsKept(GetPlayer(uid))
      ensures unchanged(Bystander(uid))
    {
      GetPlayer(uid).GiveCoins(coins);
    }

    /** Pays the coins per owned card of one type. */
    method ProcessCoinsPerCardTypeCard(uid: PlayerUid, cardType: CardType, coinsPerCardType: nat)
      requires Valid()
      modifies playerA, playerB
      ensures Valid()
      ensures GetPlayer(uid).coins
           == old(GetPlayer(uid).coins) + CountType(GetPlayer(uid).cards, cardType) * coinsPerCardType
      ensures AllButCoinsKept(GetPlayer(uid))
      ensures unchanged(Bystander(uid))
    {
      var player := GetPlayer(uid);
      var count := player.CardTypeCount(cardType);
      player.GiveCoins(count * coinsPerCardType);
    }

    /** Pays the coins per owned card of each listed type, one type after another. */
    method ProcessCoinsPerCardTypes(uid: PlayerUid, coinsPerCardType: nat, cardTypes: seq<CardType>)
      requires Valid()
      modifies playerA, playerB
      ensures Valid()
      ensures GetPlayer(uid).coins
           == old(GetPlayer(uid).coins) + PerCardTypeTotal(coinsPerCardType, cardTypes, GetPlayer(uid).cards)
      ensures AllButCoinsKept(GetPlayer(uid))
      ensures unchanged(Bystander(uid))
    {
      var player := GetPlayer(uid);
      var i := 0;
      while i < |cardTypes|
        invariant 0 <= i <= |cardTypes|
        invariant Valid()
        invariant player.coins == old(player.coins) + PerCardTypeTotal(coinsPerCardType, cardTypes[..i], player.cards)
        invariant AllButCoinsKept(player)
        invariant unchanged(Bystander(uid))
      {
        assert cardTypes[..i + 1][..i] == cardTypes[..i];
        ProcessCoinsPerCardTypeCard(uid, cardTypes[i], coinsPerCardType);
        assert CountType(player.cards, cardTypes[i]) * coinsPerCardType == coinsPerCardType * CountType(player.cards, cardTypes[i]);
        i := i + 1;
      }
      assert cardTypes[..i] == cardTypes;
    }

    /** Pays the coins per claimed wonder. */
    method ProcessCoinsPerWonderCard(uid: PlayerUid, coinsPerWonder: nat)
      requires Valid()
      modifies playerA, playerB
      ensures Valid()
      ensures GetPlayer(uid).coins
           == old(GetPlayer(uid).coins) + |WondersClaimed(GetPlayer(uid).wonders)| * coinsPerWonder
      ensures AllButCoinsKept(GetPlayer(uid))
      ensures unchanged(Bystander(uid))
    {
      var player := GetPlayer(uid);
      player.GiveCoins(|WondersClaimed(player.wonders)| * coinsPerWonder);
    }

    /**
     * Runs a purchase effect for the buyer. The coin effects pay the buyer
     * `EffectCoins` and the discount effect only adds discounts; neither
     * touches the war or the other player. Only the army effect moves the
     * war and so reaches both players.
     */
    method RunEffect(e: Effect, uid: PlayerUid)
      requires Valid()
      modifies war, playerA, playerB
      ensures Valid()
      ensures HoldingsKept(playerA) || HoldingsKept(playerB)
      ensures HoldingsKept(Bystander(uid))
      ensures e.ArmyPoints? ==> HoldingsKept(playerA) && HoldingsKept(playerB)
      ensures playerA.cards == old(playerA.cards) && playerB.cards == old(playerB.cards)
      ensures e.ArmyPoints? ==>
        && war.status == war.updateRule(old(war.status), SignedPoints(uid, e.armyPoints))
        && Loot() == Looted(war.status, uid == playerA.uid || uid == playerB.uid, old(Loot()))
      ensures !e.ArmyPoints? ==> war.status == old(war.status) && unchanged(Bystander(uid))
      ensures IsCoinEffect(e) ==>
        && GetPlayer(uid).coins == old(GetPlayer(uid).coins) + EffectCoins(e, GetPlayer(uid).cards, GetPlayer(uid).wonders)
        && AllButCoinsKept(GetPlayer(uid))
      ensures e.DiscountResources? ==>
        && GetPlayer(uid).resourceDiscounts == old(GetPlayer(uid).resourceDiscounts) + OneCoinDiscounts(e.resources)
        && AllButDiscountsKept(GetPlayer(uid))
    {
      match e
      case ArmyPoints(points) =>
        ProcessArmyPoints(uid, points);
      case DiscountResources(resources) =>
        ApplyResourceDiscount(uid, resources);
      case GrantCoins(coins) =>
        ProcessCoinCard(uid, coins);
      case CoinsPerCardType(coinsPerCardType, cardTypes) =>
        ProcessCoinsPerCardTypes(uid, coinsPerCardType, cardTypes);
      case CoinsPerWonder(coinsPerWonder) =>
        ProcessCoinsPerWonderCard(uid, coinsPerWonder);
    }

    /**
     * A click on a pyramid card. A uid not face up on the pyramid, or a
     * covered card, fails with nothing changed. Otherwise the card is paid
     * for by the first route that applies; with none the click is a silent
     * no-op. A bought card leaves the pyramid and joins the buyer's cards
     * before its effect runs, so the effect counts it.
     */
    method OnCardClicked(uid: CardUid, playerUid: PlayerUid) returns (o: Outcome)
      requires Valid()
      modifies war, playerA, playerB, cardStage
      ensures Valid()
      ensures old(cardStage.GetCard(uid)).None? ==>
        o == Failed("Cannot find that card.") && unchanged(war, playerA, playerB, cardStage)
      ensures old(cardStage.GetCard(uid)).Some? && !old(cardStage.IsClickable(cardStage.GetCard(uid).value)) ==>
        o == Failed("Cannot click that card.") && unchanged(war, playerA, playerB, cardStage)
      ensures o.Done? <==> old(cardStage.GetCard(uid)).Some? && old(cardStage.IsClickable(cardStage.GetCard(uid).value))
      ensures o.Done? ==>
        var card := old(cardStage.GetCard(uid)).value;
        var route := old(PaymentFor(card, GetPlayer(playerUid), GetOtherPlayer(playerUid)));
        route == Unaffordable ==> unchanged(war, playerA, playerB, cardStage)
      ensures o.Done? ==>
        var card := old(cardStage.GetCard(uid)).value;
        var route := old(PaymentFor(card, GetPlayer(playerUid), GetOtherPlayer(playerUid)));
        route != Unaffordable ==>
          Purchased(card, playerUid, old(Charge(card, route, GetPlayer(playerUid), GetOtherPlayer(playerUid))))
      ensures Clicked(uid, playerUid, o)
    {
      var found := cardStage.GetCard(uid);
      if found.None? {
        return Failed("Cannot find that card.");
      }
      var card := found.value;
      if !cardStage.IsClickable(card) {
        return Failed("Cannot click that card.");
      }
      var bought := Buy(card, playerUid);
      o := Done;
    }

    /**
     * What a click on pyramid card `uid` leads to: a failure with nothing
     * changed when the card is not face up or is covered, and otherwise
     * either nothing changed, when no payment route applies, or the card
     * bought for the charge of the first route that does.
     */
    twostate predicate Clicked(uid: CardUid, playerUid: PlayerUid, o: Outcome)
      requires old(Rectangular(cardStage.stage))
      requires playerA.letter == A && playerB.letter == B
      reads this, war, playerA, playerB, cardStage
    {
      var found := old(cardStage.GetCard(uid));
      && (found.None? ==> o == Failed("Cannot find that card."))
      && (found.Some? && !old(cardStage.IsClickable(found.value)) ==> o == Failed("Cannot click that card."))
      && (o.Failed? ==> unchanged(war, playerA, playerB, cardStage))
      && (o.Done? <==> found.Some? && old(cardStage.IsClickable(found.value)))
      && (o.Done? ==>
            var route := old(PaymentFor(found.value, GetPlayer(playerUid), GetOtherPlayer(playerUid)));
            && (route == Unaffordable ==> unchanged(war, playerA, playerB, cardStage))
            && (route != Unaffordable ==>
                  Purchased(found.value, playerUid, old(Charge(found.value, route, GetPlayer(playerUid), GetOtherPlayer(playerUid))))))
    }

    /**
     * What buying `card` for `charge` coins does: the card leaves the
     * pyramid for the buyer, who pays the charge and gains the effect's
     * coins or discounts; an army effect moves the war and the looting
     * follows it for both players from their coins after the payment; any
     * other purchase leaves the war and the other player alone, and the
     * other player's cards, tokens, wonders and discounts are always kept.
     */
    twostate predicate Purchased(card: Card, playerUid: PlayerUid, charge: int)
      requires old(Rectangular(cardStage.stage))
      requires playerA.letter == A && playerB.letter == B
      reads this, war, playerA, playerB, cardStage
    {
      var buyer := GetPlayer(playerUid);
      && cardStage.stage == RemoveFrom(old(cardStage.stage), card.uid, 0, 0)
      && buyer.cards == old(buyer.cards) + [card]
      && (card.onBuy.None? ==>
            buyer.coins == old(buyer.coins) - charge && war.status == old(war.status))
      && (card.onBuy.Some? && IsCoinEffect(card.onBuy.value) ==>
            buyer.coins == old(buyer.coins) - charge + EffectCoins(card.onBuy.value, buyer.cards, buyer.wonders))
      && (card.onBuy.Some? && card.onBuy.value.ArmyPoints? ==>
            && war.status == war.updateRule(old(war.status), SignedPoints(playerUid, card.onBuy.value.armyPoints))
            && old(playerA.coins) - (if playerUid == playerA.uid then charge else 0) >= 0
            && old(playerB.coins) - (if playerUid == playerA.uid then 0 else charge) >= 0
            && Loot() == Looted(war.status, playerUid == playerA.uid || playerUid == playerB.uid,
                 Looting(old(playerA.warLootingStatus), old(playerA.coins) - (if playerUid == playerA.uid then charge else 0),
                         old(playerB.warLootingStatus), old(playerB.coins) - (if playerUid == playerA.uid then 0 else charge))))
      && (card.onBuy.Some? && card.onBuy.value.DiscountResources? ==>
            && buyer.coins == old(buyer.coins) - charge
            && buyer.resourceDiscounts == old(buyer.resourceDiscounts) + OneCoinDiscounts(card.onBuy.value.resources))
      && (!(card.onBuy.Some? && card.onBuy.value.ArmyPoints?) ==>
            war.status == old(war.status) && unchanged(Bystander(playerUid)))
      && HoldingsKept(Bystander(playerUid))
      && BuyerKept(buyer, card.onBuy.Some? && card.onBuy.value.ArmyPoints?, card.onBuy.Some? && card.onBuy.value.DiscountResources?)
    }

    /** Pays for the card by the first route that applies and, when one does, takes it. */
    method Buy(card: Card, playerUid: PlayerUid) returns (bought: bool)
      requires Valid()
      modifies war, playerA, playerB, cardStage
      ensures Valid()
      ensures bought <==> old(PaymentFor(card, GetPlayer(playerUid), GetOtherPlayer(playerUid))) != Unaffordable
      ensures !bought ==> unchanged(war, playerA, playerB, cardStage)
      ensures bought ==>
        Purchased(card, playerUid,
          old(Charge(card, PaymentFor(card, GetPlayer(playerUid), GetOtherPlayer(playerUid)), GetPlayer(playerUid), GetOtherPlayer(playerUid))))
    {
      var player := GetPlayer(playerUid);
      var otherPlayer := GetOtherPlayer(playerUid);
      ghost var charge := Charge(card, PaymentFor(card, player, otherPlayer), player, otherPlayer);
      assert playerUid == playerA.uid ==> player == playerA;
      assert playerUid != playerA.uid ==> player == playerB;
      bought := Pay(card, player, otherPlayer);
      if bought {
        assert playerA.warLootingStatus == old(playerA.warLootingStatus);
        assert playerB.warLootingStatus == old(playerB.warLootingStatus);
        assert playerA.coins == old(playerA.coins) - (if playerUid == playerA.uid then charge else 0);
        assert playerB.coins == old(playerB.coins) - (if playerUid == playerA.uid then 0 else charge);
        ghost var paid := Looting(old(playerA.warLootingStatus), old(playerA.coins) - (if playerUid == playerA.uid then charge else 0),
                                  old(playerB.warLootingStatus), old(playerB.coins) - (if playerUid == playerA.uid then 0 else charge));
        assert Loot() == paid;
        Take(card, playerUid);
        assert Purchased(card, playerUid, charge);
      }
    }

    /** Moves a paid-for card from the pyramid to the buyer and runs its effect. */
    method Take(card: Card, playerUid: PlayerUid)
      requires Valid()
      modifies war, playerA, playerB, cardStage
      ensures Valid()
      ensures cardStage.stage == RemoveFrom(old(cardStage.stage), card.uid, 0, 0)
      ensures GetPlayer(playerUid).cards == old(GetPlayer(playerUid).cards) + [card]
      ensures card.onBuy.None? ==>
        GetPlayer(playerUid).coins == old(GetPlayer(playerUid).coins) && war.status == old(war.status)
      ensures card.onBuy.Some? && IsCoinEffect(card.onBuy.value) ==>
        GetPlayer(playerUid).coins
        == old(GetPlayer(playerUid).coins) + EffectCoins(card.onBuy.value, GetPlayer(playerUid).cards, GetPlayer(playerUid).wonders)
      ensures card.onBuy.Some? && card.onBuy.value.ArmyPoints? ==>
        && war.status == war.updateRule(old(war.status), SignedPoints(playerUid, card.onBuy.value.armyPoints))
        && Loot() == Looted(war.status, playerUid == playerA.uid || playerUid == playerB.uid, old(Loot()))
      ensures card.onBuy.Some? && card.onBuy.value.DiscountResources? ==>
        && GetPlayer(playerUid).coins == old(GetPlayer(playerUid).coins)
        && GetPlayer(playerUid).resourceDiscounts
           == old(GetPlayer(playerUid).resourceDiscounts) + OneCoinDiscounts(card.onBuy.value.resources)
      ensures !(card.onBuy.Some? && card.onBuy.value.ArmyPoints?) ==>
        war.status == old(war.status) && unchanged(Bystander(playerUid))
      ensures HoldingsKept(Bystander(playerUid))
      ensures BuyerKept(GetPlayer(playerUid), card.onBuy.Some? && card.onBuy.value.ArmyPoints?, card.onBuy.Some? && card.onBuy.value.DiscountResources?)
    {
      var player := GetPlayer(playerUid);
      cardStage.Remove(card);
      player.AddCard(card);
      if card.onBuy.Some? {
        RunEffect(card.onBuy.value, playerUid);
      }
    }

    /**
     * The one-shot click listener: it only fires for the player whose turn
     * it is, and the turn passes after every click that does not fail,
     * a silent no-op included. The validator does not check the `card`
     * member, so it can be missing (`None`); reading its uid then throws
     * and nothing changes.
     */
    method OnStageCardClicked(card: Option<CardUid>, playerUid: PlayerUid) returns (o: Outcome)
      requires Valid()
      requires turn.AsUid() == playerUid
      modifies war, playerA, playerB, cardStage, turn
      ensures Valid()
      ensures card.None? ==>
        o == Failed("Cannot read properties of undefined (reading 'uid')")
        && unchanged(war, playerA, playerB, cardStage, turn)
      ensures card.Some? ==>
        (o.Done? <==> old(cardStage.GetCard(card.value)).Some? && old(cardStage.IsClickable(cardStage.GetCard(card.value).value)))
      ensures card.Some? ==> Clicked(card.value, playerUid, o)
      ensures o.Done? ==> turn.turn == Toggled(old(turn.turn)) && turn.hookCalls == old(turn.hookCalls) + 1
      ensures o.Failed? ==> unchanged(turn)
    {
      if card.None? {
        return Failed("Cannot read properties of undefined (reading 'uid')");
      }
      o := OnCardClicked(card.value, playerUid);
      if o.Failed? {
        return;
      }
      label clicked:
      turn.Toggle();
      assert unchanged@clicked(this, war, playerA, playerB, cardStage);
    }
  }

  /**
   * Starts a game and takes its snapshot: the game is under way, yet the
   * snapshot, as written, reports it as not in progress.
   */
  method NewGameSnapshot(
    roomUid: string,
    uidA: PlayerUid, nameA: string,
    uidB: PlayerUid, nameB: string,
    catalogue: Age -> seq<Card>, guild: CardPile, templates: Age -> seq<string>, ids: IdSupply,
    updateRule: (WarStatus, int) -> WarStatus, pointsRule: (WarStatus, Letter) -> int)
    returns (g: GameController, s: GameState)
    requires uidA != uidB
    requires |guild.cards| >= 3
    requires forall a :: TemplatesRectangular(templates(a))
    requires |catalogue(Age1)| >= 3 && TotalDraws(templates(Age1)) <= |catalogue(Age1)| - 3
    modifies ids
    ensures g.roomUid == roomUid && g.InProgress()
    ensures s == g.State() && !s.inProgress
  {
    g := new GameController(roomUid, uidA, nameA, uidB, nameB, catalogue, guild, templates, ids, updateRule, pointsRule);
    g.NewGameReportedAsNotInProgress();
    s := g.State();
  }

  /** A new token controller after its reset: five tokens on the board and five in the supply. */
  method DealtScienceTokens() returns (st: ScienceTokenController)
    ensures fresh(st)
    ensures |st.onBoard| == 5 && |st.allTokens| == 5 && AllOccupied(st.onBoard)
  {
    st := new ScienceTokenController();
    st.Reset();
  }

  /** A new pile and pyramid for the first age, from fixtures large enough for it. */
  method FirstAgeTable(catalogue: Age -> seq<Card>, guild: CardPile, templates: Age -> seq<string>, ids: IdSupply)
    returns (deck: CardDeckController, stage: CardStageController)
    requires |guild.cards| >= 3 && TemplatesRectangular(templates(Age1))
    requires |catalogue(Age1)| >= 3 && TotalDraws(templates(Age1)) <= |catalogue(Age1)| - 3
    modifies ids
    ensures fresh(deck) && fresh(stage)
    ensures deck.catalogue == catalogue && deck.guild == guild && deck.ids == ids
    ensures stage.cards == deck && stage.templates == templates && stage.Valid()
    ensures |stage.stage| == |templates(Age1)| && RowsFollow(stage.stage, templates(Age1))
    ensures |deck.cards| == |catalogue(Age1)| - 3 - TotalDraws(templates(Age1))
  {
    deck := new CardDeckController(catalogue, guild, ids);
    stage := new CardStageController(deck, templates);
    var setUp := SetUpAge(deck, stage, Age1);
  }

  /**
   * Resets the pile for the age and sets the pyramid from it; a reset
   * that fails leaves the pyramid alone. Either failing leaves the pile
   * empty.
   */
  method SetUpAge(deck: CardDeckController, stage: CardStageController, age: Age) returns (o: Outcome)
    requires stage.cards == deck && |deck.guild.cards| >= 3
    requires TemplatesRectangular(stage.templates(age)) && stage.Valid()
    modifies deck, deck.ids, stage
    ensures stage.Valid()
    ensures o.Done? <==>
      |deck.catalogue(age)| >= 3 && TotalDraws(stage.templates(age)) <= ResetSize(age, |deck.catalogue(age)|)
    ensures o.Failed? ==> deck.cards == []
    ensures o.Done? ==>
      && |stage.stage| == |stage.templates(age)|
      && RowsFollow(stage.stage, stage.templates(age))
      && |deck.cards| == ResetSize(age, |deck.catalogue(age)|) - TotalDraws(stage.templates(age))
  {
    var reset, kept, extra := deck.Reset(age);
    if reset.Failed? {
      return reset;
    }
    o := stage.Set(age);
  }

  /** Nothing a purchase or an effect can change, other than coins and looting tier. */
  twostate predicate HoldingsKept(p: PlayerController)
    reads p
  {
    && p.cards == old(p.cards) && p.scienceTokens == old(p.scienceTokens)
    && p.wonders == old(p.wonders) && p.resourceDiscounts == old(p.resourceDiscounts)
  }

  twostate predicate AllButCoinsKept(p: PlayerController)
    reads p
  {
    HoldingsKept(p) && p.warLootingStatus == old(p.warLootingStatus)
  }

  /**
   * What a purchase keeps of the buyer: the science tokens and the wonders,
   * the looting tier unless an army effect may move it, and the discounts
   * unless a discount effect may add to them.
   */
  twostate predicate BuyerKept(p: PlayerController, tierMayMove: bool, discountsMayGrow: bool)
    reads p
  {
    && p.scienceTokens == old(p.scienceTokens) && p.wonders == old(p.wonders)
    && (!tierMayMove ==> p.warLootingStatus == old(p.warLootingStatus))
    && (!discountsMayGrow ==> p.resourceDiscounts == old(p.resourceDiscounts))
  }

  twostate predicate AllButDiscountsKept(p: PlayerController)
    reads p
  {
    && p.cards == old(p.cards) && p.coins == old(p.coins) && p.scienceTokens == old(p.scienceTokens)
    && p.wonders == old(p.wonders) && p.warLootingStatus == old(p.warLootingStatus)
  }

  /**
   * Takes the price of the first payment route that applies: nothing for
   * a held link, the coin cost when own production covers the resources,
   * the coin cost plus the trading cost when the coins cover that.
   */
  method Pay(card: Card, player: PlayerController, otherPlayer: PlayerController) returns (canBuy: bool)
    modifies player
    ensures canBuy <==> old(PaymentFor(card, player, otherPlayer)) != Unaffordable
    ensures player.coins == old(player.coins) - old(Charge(card, PaymentFor(card, player, otherPlayer), player, otherPlayer))
    ensures AllButCoinsKept(player)
    ensures !canBuy ==> unchanged(player)
  {
    PaymentIsExact(card, player, otherPlayer);
    canBuy := false;
    if card.buyWithLink.Some? && player.HasLinkSymbol(card.buyWithLink.value) {
      canBuy := true;
    } else {
      var affordable := player.CanAffordCard(card);
      if affordable {
        canBuy := true;
        player.ChargeCoins(card.coinCost);
      } else {
        var tradable := player.CanTradeForCard(card, otherPlayer);
        if tradable {
          canBuy := true;
          var tradingCost := player.TradingCostForCard(card, otherPlayer);
          player.ChargeCoins(card.coinCost + tradingCost);
        }
      }
    }
  }
}
