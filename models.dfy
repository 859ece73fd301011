/**
 * The value types of the duel card game: resources, science symbols and
 * progress tokens, cards with their category-specific data, wonders, ages,
 * and the purchase effects a card can carry.
 */
module Models {

  datatype Option<+T> = None | Some(value: T)

  /** The outcome of an operation that returns a value in the source or throws. */
  datatype Result<+T> = Ok(value: T) | Err(message: string)

  /** The outcome of an operation that returns nothing in the source or throws. */
  datatype Outcome = Done | Failed(message: string)

  // ---------------------------------------------------------------------------
  // Resources

  datatype Resource = Wood | Clay | Stone | Glass | Papyrus

  /** A trading-price override the player bought: `coinsPer` coins per unit of `kind`. */
  datatype ResourceDiscount = ResourceDiscount(kind: Resource, coinsPer: nat)

  // ---------------------------------------------------------------------------
  // Science

  datatype ScienceType = Wheel | Mortar | Quill | Gyroscope | SunDial | Pendulum | Law

  datatype ScienceProgressToken =
    | Agriculture | Architecture | Economy | LawToken | Masonry
    | Mathematics | Philosophy | Strategy | Theology | Urbanism

  /** Every token kind, in the order the enumeration declares them. */
  const AllTokens: seq<ScienceProgressToken> :=
    [Agriculture, Architecture, Economy, LawToken, Masonry,
     Mathematics, Philosophy, Strategy, Theology, Urbanism]

  lemma AllTokensDistinct()
    ensures |AllTokens| == 10
    ensures NoDuplicates(AllTokens)
  {
  }

  // ---------------------------------------------------------------------------
  // Cards

  type CardUid = nat
  type PlayerUid = string
  /**
   * Link symbols are only compared for equality; they are enumeration
   * values, so never the empty (falsy) string.
   */
  type LinkSymbol = s: string | |s| > 0 witness "link"

  datatype Letter = A | B

  datatype Age = Age1 | Age2 | Age3

  /** The back a card shows while it lies face down on the stage. */
  datatype FlippedCardType = Age1Back | Age2Back | Age3PinkBack

  datatype CardType =
    | BrownProduction | GrayProduction | YellowCommercial | GreenScience
    | BlueVictory | RedMilitary | PurpleGuild

  /** The wildcard group a commercial card grants, if any. */
  datatype CommercialType = AnyBrownResource | AnyGrayResource

  /** A coin divisor; the source divides by it, so it is never 0. */
  type Positive = n: nat | n > 0 witness 1

  /** A guild card's scoring formula. */
  datatype GuildFormula =
    | PointsPerCoins(divisor: Positive)
    | PointsPerWonder
    | PointsPerCardType(types: seq<CardType>)

  /** The category of a card together with the fields only that category has. */
  datatype Category =
    | Brown(produces: seq<Resource>)
    | Gray(produces: seq<Resource>)
    | Yellow(wildcard: Option<CommercialType>, yellowPoints: Option<nat>)
    | Green(science: ScienceType, sciencePoints: nat)
    | Blue(bluePoints: nat)
    | Red
    | Purple(formula: GuildFormula, guildPoints: nat)

  function TypeOf(c: Category): CardType {
    match c
    case Brown(_) => BrownProduction
    case Gray(_) => GrayProduction
    case Yellow(_, _) => YellowCommercial
    case Green(_, _) => GreenScience
    case Blue(_) => BlueVictory
    case Red => RedMilitary
    case Purple(_, _) => PurpleGuild
  }

  /**
   * What buying a card triggers; one variant per effect factory
   * (army points, resource discount, flat coins, coins per card type,
   * coins per claimed wonder).
   */
  datatype Effect =
    | ArmyPoints(armyPoints: int)
    | DiscountResources(resources: seq<Resource>)
    | GrantCoins(coins: nat)
    | CoinsPerCardType(coinsPerCardType: nat, cardTypes: seq<CardType>)
    | CoinsPerWonder(coinsPerWonder: nat)

  datatype Card = Card(
    uid: CardUid,
    category: Category,
    coinCost: nat,
    resourceCost: seq<Resource>,
    providesLink: Option<LinkSymbol>,
    buyWithLink: Option<LinkSymbol>,
    onBuy: Option<Effect>,
    reverse: FlippedCardType,
    faceDown: bool
  )

  // ---------------------------------------------------------------------------
  // Wonders

  /** A wonder is claimed once a card has been spent on it. */
  datatype Wonder = Wonder(claimedWith: Option<CardUid>)

  // ---------------------------------------------------------------------------
  // Small sequence helpers shared by the controllers

  /** Removes the element at index `i`, as `splice(i, 1)` does. */
  function Splice<T>(s: seq<T>, i: nat): (r: seq<T>)
    requires i < |s|
    ensures |r| == |s| - 1
    ensures multiset(r) + multiset{s[i]} == multiset(s)
    ensures forall k :: 0 <= k < i ==> r[k] == s[k]
    ensures forall k :: i <= k < |r| ==> r[k] == s[k + 1]
  {
    assert s == s[..i] + [s[i]] + s[i + 1..];
    s[..i] + s[i + 1..]
  }

  function Max0(x: int): nat {
    if x < 0 then 0 else x
  }

  function Abs(x: int): nat {
    if x < 0 then -x else x
  }

  ghost predicate NoDuplicates<T>(s: seq<T>) {
    forall i, j :: 0 <= i < j < |s| ==> s[i] != s[j]
  }

  lemma {:induction false} CountInDistinct<T>(d: seq<T>, v: T)
    requires NoDuplicates(d)
    ensures multiset(d)[v] <= 1
  {
    if d != [] {
      assert d == [d[0]] + d[1..];
      CountInDistinct(d[1..], v);
      if d[0] == v {
        assert v !in d[1..];
      }
    }
  }

  /** A sub-multiset of a sequence without duplicates has none either. */
  lemma NoDuplicatesFromMultiset<T>(x: seq<T>, d: seq<T>)
    requires multiset(x) <= multiset(d)
    requires NoDuplicates(d)
    ensures NoDuplicates(x)
  {
    forall i, j | 0 <= i < j < |x| ensures x[i] != x[j] {
      if x[i] == x[j] {
        var v := x[i];
        assert x == x[..i] + [x[i]] + x[i + 1..j] + [x[j]] + x[j + 1..];
        assert multiset(x)[v] >= 2;
        CountInDistinct(d, v);
      }
    }
  }
}
