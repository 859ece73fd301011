/**
 * The per-player economy: what a player's cards produce, what a card costs
 * them, their coins, their war-penalty tier and their victory points.
 *
 * Everything the source derives from the owned cards by looping over them
 * (produced resources, wildcard groups, link symbols, science symbols,
 * points) is a pure function of the card list here; the cost checks that
 * splice copied lists are methods with loops, proved against the pure
 * greedy matcher `Greedy` and the pure pricing `TradeCost`.
 */
module PlayerControl {
  import opened Models

  // ---------------------------------------------------------------------------
  // Views derived from the owned cards

  /** What one card adds to the produced resources. */
  function Produces(c: Card): seq<Resource> {
    match c.category
    case Brown(rs) => rs
    case Gray(rs) => rs
    case _ => []
  }

  /** All resources the cards produce, card by card in ownership order. */
  function Resources(cards: seq<Card>): (rs: seq<Resource>)
    ensures forall r :: r in rs <==> exists i :: 0 <= i < |cards| && r in Produces(cards[i])
  {
    if cards == [] then []
    else
      var prefix := cards[..|cards| - 1];
      var last := cards[|cards| - 1];
      assert forall i :: 0 <= i < |prefix| ==> prefix[i] == cards[i];
      Resources(prefix) + Produces(last)
  }

  /** Adding a card appends what it produces to the produced resources. */
  lemma ResourcesOfAppend(cards: seq<Card>, c: Card)
    ensures Resources(cards + [c]) == Resources(cards) + Produces(c)
  {
    assert (cards + [c])[..|cards|] == cards;
  }

  /** How many units of `r` the cards produce, summed card by card from the first. */
  function ProducedBy(cards: seq<Card>, r: Resource): nat {
    if cards == [] then 0 else multiset(Produces(cards[0]))[r] + ProducedBy(cards[1..], r)
  }

  lemma {:induction false} ProducedByOfAppend(cards: seq<Card>, c: Card, r: Resource)
    ensures ProducedBy(cards + [c], r) == ProducedBy(cards, r) + multiset(Produces(c))[r]
  {
    if cards != [] {
      assert (cards + [c])[1..] == cards[1..] + [c];
      ProducedByOfAppend(cards[1..], c, r);
    }
  }

  /**
   * Each resource occurs among the produced resources once per unit a card
   * produces, so `resourceCount` and the trading price count every unit.
   */
  lemma {:induction false} ResourcesCounted(cards: seq<Card>, r: Resource)
    ensures multiset(Resources(cards))[r] == ProducedBy(cards, r)
  {
    if cards != [] {
      var prefix, last := cards[..|cards| - 1], cards[|cards| - 1];
      assert cards == prefix + [last];
      ResourcesCounted(prefix, r);
      ProducedByOfAppend(prefix, last, r);
      assert multiset(Resources(cards)) == multiset(Resources(prefix)) + multiset(Produces(last));
    }
  }

  const BrownGroup: seq<Resource> := [Wood, Stone, Clay]
  const GrayGroup: seq<Resource> := [Glass, Papyrus]

  /** The wildcard group a commercial card grants, if any. */
  function WildcardGroup(c: Card): Option<seq<Resource>> {
    match c.category
    case Yellow(Some(AnyBrownResource), _) => Some(BrownGroup)
    case Yellow(Some(AnyGrayResource), _) => Some(GrayGroup)
    case _ => None
  }

  /** The wildcard group of each card, position by position. */
  function GroupsOf(cards: seq<Card>): (gs: seq<Option<seq<Resource>>>)
    ensures |gs| == |cards|
    ensures forall i :: 0 <= i < |cards| ==> gs[i] == WildcardGroup(cards[i])
  {
    seq(|cards|, i requires 0 <= i < |cards| => WildcardGroup(cards[i]))
  }

  /** One wildcard group per commercial card that grants one, in ownership order. */
  function Wildcards(cards: seq<Card>): (ws: seq<seq<Resource>>)
    ensures |ws| <= |cards|
    ensures forall g :: g in ws ==> g == BrownGroup || g == GrayGroup
  {
    if cards == [] then []
    else
      var prefix := cards[..|cards| - 1];
      var last := cards[|cards| - 1];
      match WildcardGroup(last)
      case Some(g) => Wildcards(prefix) + [g]
      case None => Wildcards(prefix)
  }

  /** The groups of a non-empty list are those of all but its last card, then the last card's. */
  lemma GroupsOfLast(cards: seq<Card>)
    requires cards != []
    ensures multiset(GroupsOf(cards))
         == multiset(GroupsOf(cards[..|cards| - 1])) + multiset{WildcardGroup(cards[|cards| - 1])}
  {
    assert GroupsOf(cards) == GroupsOf(cards[..|cards| - 1]) + [WildcardGroup(cards[|cards| - 1])];
  }

  /**
   * Each group occurs among the wildcards as often as owned cards grant
   * it, so there are exactly as many groups as granting cards.
   */
  lemma {:induction false} WildcardsCounted(cards: seq<Card>)
    ensures multiset(Wildcards(cards))[BrownGroup] == multiset(GroupsOf(cards))[Some(BrownGroup)]
    ensures multiset(Wildcards(cards))[GrayGroup] == multiset(GroupsOf(cards))[Some(GrayGroup)]
    ensures |Wildcards(cards)| == |cards| - multiset(GroupsOf(cards))[None]
  {
    if cards != [] {
      var prefix := cards[..|cards| - 1];
      var last := cards[|cards| - 1];
      WildcardsCounted(prefix);
      GroupsOfLast(cards);
      var rest := Wildcards(prefix);
      match WildcardGroup(last)
      case Some(g) =>
        assert multiset(GroupsOf(cards))[None] == multiset(GroupsOf(prefix))[None];
        assert multiset(rest + [g]) == multiset(rest) + multiset{g};
      case None =>
        assert multiset(GroupsOf(cards))[None] == multiset(GroupsOf(prefix))[None] + 1;
    }
  }

  /** A group is among the wildcards iff some owned card grants it. */
  lemma WildcardsGranted(cards: seq<Card>, g: seq<Resource>)
    ensures g in Wildcards(cards) <==> exists i :: 0 <= i < |cards| && WildcardGroup(cards[i]) == Some(g)
  {
    WildcardsCounted(cards);
    var gs := GroupsOf(cards);
    if g in Wildcards(cards) {
      assert Some(g) in multiset(gs);
      var i :| 0 <= i < |gs| && gs[i] == Some(g);
    }
    if exists i :: 0 <= i < |cards| && WildcardGroup(cards[i]) == Some(g) {
      var i :| 0 <= i < |cards| && WildcardGroup(cards[i]) == Some(g);
      assert gs[i] == Some(g);
      assert g == BrownGroup || g == GrayGroup;
    }
  }

  /** The link symbols the cards provide, in ownership order. */
  function LinkSymbols(cards: seq<Card>): (ls: seq<LinkSymbol>)
    ensures forall l :: l in ls <==> exists i :: 0 <= i < |cards| && cards[i].providesLink == Some(l)
  {
    if cards == [] then []
    else
      var prefix := cards[..|cards| - 1];
      var last := cards[|cards| - 1];
      assert forall i :: 0 <= i < |prefix| ==> prefix[i] == cards[i];
      match last.providesLink
      case Some(l) => LinkSymbols(prefix) + [l]
      case None => LinkSymbols(prefix)
  }

  predicate HasScience(c: Card, s: ScienceType) {
    c.category.Green? && c.category.science == s
  }

  /** The science types of the green cards, each once, in the order first seen. */
  function GreenSymbols(cards: seq<Card>): (ss: seq<ScienceType>)
    ensures NoDuplicates(ss)
    ensures forall s :: s in ss <==> exists i :: 0 <= i < |cards| && HasScience(cards[i], s)
  {
    if cards == [] then []
    else
      var prefix := cards[..|cards| - 1];
      var last := cards[|cards| - 1];
      assert forall i :: 0 <= i < |prefix| ==> prefix[i] == cards[i];
      var seen := GreenSymbols(prefix);
      if last.category.Green? && last.category.science !in seen then seen + [last.category.science]
      else seen
  }

  /**
   * The green science types followed by LAW when the LAW token is held.
   * LAW is appended without a membership test, so a green LAW card and the
   * token together list LAW twice.
   */
  function UniqueScienceSymbols(cards: seq<Card>, tokens: seq<ScienceProgressToken>): (ss: seq<ScienceType>)
    ensures |ss| == |GreenSymbols(cards)| || |ss| == |GreenSymbols(cards)| + 1
    ensures |ss| == |GreenSymbols(cards)| + 1 <==> LawToken in tokens
    ensures ss[..|GreenSymbols(cards)|] == GreenSymbols(cards)
    ensures LawToken in tokens ==> ss[|ss| - 1] == Law
  {
    var seen := GreenSymbols(cards);
    if LawToken in tokens then seen + [Law] else seen
  }

  /** The wonders a card has been spent on, in their original order. */
  function WondersClaimed(wonders: seq<Wonder>): (ws: seq<Wonder>)
    ensures |ws| <= |wonders|
    ensures forall w :: w in ws <==> w in wonders && w.claimedWith.Some?
  {
    if wonders == [] then []
    else
      var rest := WondersClaimed(wonders[1..]);
      assert wonders == [wonders[0]] + wonders[1..];
      if wonders[0].claimedWith.Some? then [wonders[0]] + rest else rest
  }

  /** The type of each card, position by position. */
  function TypesOf(cards: seq<Card>): (ts: seq<CardType>)
    ensures |ts| == |cards|
    ensures forall i :: 0 <= i < |cards| ==> ts[i] == TypeOf(cards[i].category)
  {
    seq(|cards|, i requires 0 <= i < |cards| => TypeOf(cards[i].category))
  }

  /** How many of the cards are of the given type: the length of the filtered list. */
  function CountType(cards: seq<Card>, t: CardType): (n: nat)
    ensures n <= |cards|
    ensures n == 0 <==> forall i :: 0 <= i < |cards| ==> TypeOf(cards[i].category) != t
  {
    if cards == [] then 0
    else
      var prefix := cards[..|cards| - 1];
      assert forall i :: 0 <= i < |prefix| ==> prefix[i] == cards[i];
      CountType(prefix, t) + (if TypeOf(cards[|cards| - 1].category) == t then 1 else 0)
  }

  /** The count of a type is how often it occurs among the cards' types. */
  lemma {:induction false} CountTypeIsMultiplicity(cards: seq<Card>, t: CardType)
    ensures CountType(cards, t) == multiset(TypesOf(cards))[t]
  {
    if cards != [] {
      var prefix := cards[..|cards| - 1];
      CountTypeIsMultiplicity(prefix, t);
      assert TypesOf(cards) == TypesOf(prefix) + [TypeOf(cards[|cards| - 1].category)];
    }
  }

  /** How many entries of `rs` equal `r`: the length of the filtered list. */
  function Count(rs: seq<Resource>, r: Resource): (n: nat)
    ensures n == multiset(rs)[r]
  {
    if rs == [] then 0
    else
      assert rs == [rs[0]] + rs[1..];
      (if rs[0] == r then 1 else 0) + Count(rs[1..], r)
  }

  // ---------------------------------------------------------------------------
  // Victory points

  /**
   * `vp` for every owned card of each listed type, a type listed twice
   * counting twice: a guild's per-type points and a commercial card's
   * per-type coins.
   */
  function PerCardTypeTotal(vp: nat, types: seq<CardType>, all: seq<Card>): nat {
    if types == [] then 0
    else PerCardTypeTotal(vp, types[..|types| - 1], all) + vp * CountType(all, types[|types| - 1])
  }

  /** What one card scores, given all owned cards, the coins and the wonders. */
  function CardPoints(c: Card, all: seq<Card>, coins: nat, wonders: seq<Wonder>): (r: nat)
    ensures r > 0 ==> c.category.Blue? || c.category.Green? || c.category.Yellow? || c.category.Purple?
  {
    match c.category
    case Blue(p) => p
    case Green(_, p) => p
    case Yellow(_, p) => if p.Some? then p.value else 0
    case Purple(f, vp) =>
      (match f
       case PointsPerCoins(d) => vp * (coins / d)
       case PointsPerWonder => vp * |WondersClaimed(wonders)|
       case PointsPerCardType(types) => PerCardTypeTotal(vp, types, all))
    case _ => 0
  }

  /** The building points of the cards `cs`, scored against all owned cards. */
  function BuildingPoints(cs: seq<Card>, all: seq<Card>, coins: nat, wonders: seq<Wonder>): (r: nat)
    ensures forall i :: 0 <= i < |cs| ==> CardPoints(cs[i], all, coins, wonders) <= r
    ensures r == 0 <==> forall i :: 0 <= i < |cs| ==> CardPoints(cs[i], all, coins, wonders) == 0
  {
    if cs == [] then 0
    else
      var prefix := cs[..|cs| - 1];
      assert forall i :: 0 <= i < |prefix| ==> prefix[i] == cs[i];
      BuildingPoints(prefix, all, coins, wonders) + CardPoints(cs[|cs| - 1], all, coins, wonders)
  }

  /** What one progress token scores when `held` tokens are held in all. */
  function TokenValue(t: ScienceProgressToken, held: nat): (v: nat)
    ensures v == 0 <==> !(t == Agriculture || t == Philosophy || (t == Mathematics && held > 0))
  {
    match t
    case Agriculture => 4
    case Mathematics => 3 * held
    case Philosophy => 7
    case _ => 0
  }

  /** What the tokens `ts` score when `held` tokens are held in all. */
  function TokenPoints(ts: seq<ScienceProgressToken>, held: nat): (r: nat)
    ensures forall i :: 0 <= i < |ts| ==> TokenValue(ts[i], held) <= r
    ensures r == 0 <==> forall i :: 0 <= i < |ts| ==> TokenValue(ts[i], held) == 0
  {
    if ts == [] then 0
    else
      var prefix := ts[..|ts| - 1];
      assert forall i :: 0 <= i < |prefix| ==> prefix[i] == ts[i];
      TokenPoints(prefix, held) + TokenValue(ts[|ts| - 1], held)
  }

  /** Building points, then token points, then one point per three coins (wonders score nothing yet). */
  function VictoryPoints(cards: seq<Card>, coins: nat, tokens: seq<ScienceProgressToken>, wonders: seq<Wonder>): (r: nat)
    ensures r == BuildingPoints(cards, cards, coins, wonders)
               + 4 * multiset(tokens)[Agriculture] + 7 * multiset(tokens)[Philosophy]
               + 3 * |tokens| * multiset(tokens)[Mathematics]
               + coins / 3
  {
    TokenPointsClosedForm(tokens, |tokens|);
    BuildingPoints(cards, cards, coins, wonders) + TokenPoints(tokens, |tokens|) + coins / 3
  }

  /** The token points in closed form: 4 per AGRICULTURE, 7 per PHILOSOPHY, 3 × held per MATHEMATICS. */
  lemma {:induction false} TokenPointsClosedForm(ts: seq<ScienceProgressToken>, held: nat)
    ensures TokenPoints(ts, held)
         == 4 * multiset(ts)[Agriculture] + 7 * multiset(ts)[Philosophy] + 3 * held * multiset(ts)[Mathematics]
  {
    if ts != [] {
      var prefix, last := ts[..|ts| - 1], ts[|ts| - 1];
      assert ts == prefix + [last];
      assert multiset(ts) == multiset(prefix) + multiset{last};
      assert TokenPoints(ts, held) == TokenPoints(prefix, held) + TokenValue(last, held);
      TokenPointsClosedForm(prefix, held);
      var m := multiset(prefix)[Mathematics];
      if last == Mathematics {
        assert multiset(ts)[Mathematics] == m + 1;
        MulSucc(3 * held, m);
      } else {
        assert multiset(ts)[Mathematics] == m;
      }
    }
  }

  lemma MulSucc(k: nat, m: nat)
    ensures k * (m + 1) == k * m + k
  {
  }

  lemma MulMono(k: nat, x: nat, y: nat)
    requires x <= y
    ensures k * x <= k * y
  {
  }

  /** Adding a card adds one to its own type's count and leaves every other count alone. */
  lemma CountTypeOfAppend(all: seq<Card>, c: Card, t: CardType)
    ensures CountType(all + [c], t) == CountType(all, t) + (if TypeOf(c.category) == t then 1 else 0)
  {
    CountTypeIsMultiplicity(all, t);
    CountTypeIsMultiplicity(all + [c], t);
    assert TypesOf(all + [c]) == TypesOf(all) + [TypeOf(c.category)];
  }

  lemma {:induction false} PerCardTypeTotalGrows(vp: nat, types: seq<CardType>, all: seq<Card>, c: Card)
    ensures PerCardTypeTotal(vp, types, all) <= PerCardTypeTotal(vp, types, all + [c])
  {
    if types != [] {
      PerCardTypeTotalGrows(vp, types[..|types| - 1], all, c);
      CountTypeOfAppend(all, c, types[|types| - 1]);
      MulMono(vp, CountType(all, types[|types| - 1]), CountType(all + [c], types[|types| - 1]));
    }
  }

  lemma {:induction false} BuildingPointsGrow(cs: seq<Card>, all: seq<Card>, c: Card, coins: nat, wonders: seq<Wonder>)
    ensures BuildingPoints(cs, all, coins, wonders) <= BuildingPoints(cs, all + [c], coins, wonders)
  {
    if cs != [] {
      BuildingPointsGrow(cs[..|cs| - 1], all, c, coins, wonders);
      var last := cs[|cs| - 1];
      if last.category.Purple? && last.category.formula.PointsPerCardType? {
        PerCardTypeTotalGrows(last.category.guildPoints, last.category.formula.types, all, c);
      }
    }
  }

  /** Acquiring a card never lowers a player's victory points. */
  lemma AddingCardNeverLowersPoints(cards: seq<Card>, c: Card, coins: nat, tokens: seq<ScienceProgressToken>, wonders: seq<Wonder>)
    ensures VictoryPoints(cards, coins, tokens, wonders) <= VictoryPoints(cards + [c], coins, tokens, wonders)
  {
    var more := cards + [c];
    assert more[..|more| - 1] == cards;
    BuildingPointsGrow(cards, cards, c, coins, wonders);
  }

  // ---------------------------------------------------------------------------
  // The greedy resource matcher

  /** The resources not yet used for a cost: direct resources and wildcard groups. */
  datatype Pools = Pools(direct: seq<Resource>, wild: seq<seq<Resource>>)

  /** `findIndex` for an element: its first index, or -1. */
  function IndexOf(s: seq<Resource>, x: Resource): (i: int)
    ensures -1 <= i < |s|
    ensures i == -1 <==> x !in s
    ensures i >= 0 ==> s[i] == x && forall k :: 0 <= k < i ==> s[k] != x
  {
    if s == [] then -1
    else if s[0] == x then 0
    else
      var j := IndexOf(s[1..], x);
      if j == -1 then -1 else j + 1
  }

  /** `findIndex` for a group containing the resource: its first index, or -1. */
  function GroupIndex(ws: seq<seq<Resource>>, x: Resource): (i: int)
    ensures -1 <= i < |ws|
    ensures i == -1 <==> forall k :: 0 <= k < |ws| ==> x !in ws[k]
    ensures i >= 0 ==> x in ws[i] && forall k :: 0 <= k < i ==> x !in ws[k]
  {
    if ws == [] then -1
    else if x in ws[0] then 0
    else
      var j := GroupIndex(ws[1..], x);
      if j == -1 then -1 else j + 1
  }

  /**
   * One greedy step for a required resource: nothing when neither a direct
   * resource nor a group matches; otherwise the first matching wildcard
   * group is used up when there is one, and the first equal direct resource
   * only when there is none.
   */
  function Step(p: Pools, r: Resource): (q: Option<Pools>)
    ensures q.None? <==> r !in p.direct && forall k :: 0 <= k < |p.wild| ==> r !in p.wild[k]
    ensures q.Some? && GroupIndex(p.wild, r) >= 0 ==>
      q.value == Pools(p.direct, Splice(p.wild, GroupIndex(p.wild, r)))
    ensures q.Some? && GroupIndex(p.wild, r) == -1 ==>
      q.value.wild == p.wild && multiset(q.value.direct) + multiset{r} == multiset(p.direct)
  {
    var di := IndexOf(p.direct, r);
    var wi := GroupIndex(p.wild, r);
    if di == -1 && wi == -1 then None
    else if wi != -1 then Some(Pools(p.direct, Splice(p.wild, wi)))
    else Some(Pools(Splice(p.direct, di), p.wild))
  }

  /** Whether the greedy pass covers the whole cost, resource by resource in cost order. */
  function Greedy(cost: seq<Resource>, p: Pools): (ok: bool)
    ensures ok ==> |cost| <= |p.direct| + |p.wild|
  {
    if cost == [] then true
    else
      match Step(p, cost[0])
      case None => false
      case Some(q) => Greedy(cost[1..], q)
  }

  /**
   * The reference notion: the cost can be covered by SOME assignment of each
   * required resource to an equal direct resource or to a group containing it,
   * each used at most once.
   */
  ghost predicate Coverable(cost: seq<Resource>, p: Pools)
    decreases |cost|
  {
    || cost == []
    || (exists i :: 0 <= i < |p.direct| && p.direct[i] == cost[0]
          && Coverable(cost[1..], Pools(Splice(p.direct, i), p.wild)))
    || (exists j :: 0 <= j < |p.wild| && cost[0] in p.wild[j]
          && Coverable(cost[1..], Pools(p.direct, Splice(p.wild, j))))
  }

  /** Whatever the greedy pass accepts can really be paid. */
  lemma {:induction false} GreedyIsSound(cost: seq<Resource>, p: Pools)
    requires Greedy(cost, p)
    ensures Coverable(cost, p)
  {
    if cost != [] {
      var q := Step(p, cost[0]).value;
      GreedyIsSound(cost[1..], q);
      var di := IndexOf(p.direct, cost[0]);
      var wi := GroupIndex(p.wild, cost[0]);
      if wi != -1 {
        assert q == Pools(p.direct, Splice(p.wild, wi));
      } else {
        assert q == Pools(Splice(p.direct, di), p.wild);
      }
    }
  }

  /**
   * Using up a wildcard group before a direct match can refuse a cost that
   * could be paid: STONE takes the brown group, and WOOD then has neither.
   */
  lemma WildcardFirstCanRefuseAffordableCost()
    ensures Coverable([Stone, Wood], Pools([Stone], [BrownGroup]))
    ensures !Greedy([Stone, Wood], Pools([Stone], [BrownGroup]))
  {
    StoneThenWoodCoverable();
    StoneThenWoodRefused();
  }

  /** STONE from the direct pool and WOOD from the brown group pay the cost. */
  lemma StoneThenWoodCoverable()
    ensures Coverable([Stone, Wood], Pools([Stone], [BrownGroup]))
  {
    var cost := [Stone, Wood];
    var p := Pools([Stone], [BrownGroup]);
    var q := Pools(Splice(p.direct, 0), p.wild);
    assert q == Pools([], [BrownGroup]);
    var q2 := Pools(q.direct, Splice(q.wild, 0));
    assert q2 == Pools([], []);
    assert cost[1..][1..] == [];
    assert Coverable(cost[1..][1..], q2);
    assert Wood in q.wild[0];
    assert Coverable(cost[1..], q);
  }

  /** The greedy pass spends the brown group on STONE and has nothing left for WOOD. */
  lemma StoneThenWoodRefused()
    ensures !Greedy([Stone, Wood], Pools([Stone], [BrownGroup]))
  {
    var p := Pools([Stone], [BrownGroup]);
    assert Stone in p.wild[0];
    assert Step(p, Stone) == Some(Pools([Stone], []));
    assert Step(Pools([Stone], []), Wood).None?;
  }

  /** Without wildcards the greedy pass is exact: it succeeds iff the cost is a sub-multiset of the resources. */
  lemma {:induction false} GreedyWithoutWildcardsIsExact(cost: seq<Resource>, direct: seq<Resource>)
    ensures Greedy(cost, Pools(direct, [])) <==> multiset(cost) <= multiset(direct)
  {
    if cost != [] {
      var r := cost[0];
      var rest := cost[1..];
      assert cost == [r] + rest;
      assert multiset(cost) == multiset(rest) + multiset{r};
      var p := Pools(direct, []);
      if r in direct {
        var left := Splice(direct, IndexOf(direct, r));
        assert Step(p, r) == Some(Pools(left, []));
        GreedyWithoutWildcardsIsExact(rest, left);
        SubMultisetCancel(multiset(rest), multiset(left), r);
      } else {
        assert multiset(direct)[r] == 0;
      }
    }
  }

  lemma SubMultisetCancel(a: multiset<Resource>, b: multiset<Resource>, r: Resource)
    ensures a <= b <==> a + multiset{r} <= b + multiset{r}
  {
    if a + multiset{r} <= b + multiset{r} {
      forall x ensures a[x] <= b[x] {
        assert (a + multiset{r})[x] <= (b + multiset{r})[x];
      }
    }
  }

  /** One step of the greedy pass at position `i` of the cost. */
  lemma GreedyAt(cost: seq<Resource>, i: nat, p: Pools)
    requires i < |cost|
    ensures Greedy(cost[i..], p) == (Step(p, cost[i]).Some? && Greedy(cost[i + 1..], Step(p, cost[i]).value))
  {
    assert cost[i..][0] == cost[i];
    assert cost[i..][1..] == cost[i + 1..];
  }

  /**
   * The body of the affordability loop for one unit of cost: a wildcard
   * group holding it is used up first, else an equal resource, else the
   * unit is not covered. This is one greedy `Step`.
   */
  method CoverUnit(resource: Resource, resourcesLeft: seq<Resource>, wildcardsLeft: seq<seq<Resource>>)
    returns (covered: bool, resourcesAfter: seq<Resource>, wildcardsAfter: seq<seq<Resource>>)
    ensures covered <==> Step(Pools(resourcesLeft, wildcardsLeft), resource).Some?
    ensures covered ==> Step(Pools(resourcesLeft, wildcardsLeft), resource).value == Pools(resourcesAfter, wildcardsAfter)
  {
    var indexOfResource := IndexOf(resourcesLeft, resource);
    var indexOfWildcard := GroupIndex(wildcardsLeft, resource);
    resourcesAfter, wildcardsAfter := resourcesLeft, wildcardsLeft;
    if indexOfResource == -1 && indexOfWildcard == -1 {
      covered := false;
    } else if indexOfWildcard != -1 {
      covered := true;
      wildcardsAfter := Splice(wildcardsLeft, indexOfWildcard);
    } else {
      covered := true;
      resourcesAfter := Splice(resourcesLeft, indexOfResource);
    }
  }

  /** What one covered or uncovered unit says about the greedy pass from position `i`. */
  lemma GreedyAfterCover(cost: seq<Resource>, i: nat, before: Pools, covered: bool, after: Pools)
    requires i < |cost|
    requires covered <==> Step(before, cost[i]).Some?
    requires covered ==> Step(before, cost[i]).value == after
    ensures covered ==> Greedy(cost[i..], before) == Greedy(cost[i + 1..], after)
    ensures !covered ==> !Greedy(cost[i..], before)
  {
    GreedyAt(cost, i, before);
  }

  /** The loop of `canAffordCardWithResources`: copies of the lists and a running flag. */
  method GreedyPass(cost: seq<Resource>, resources: seq<Resource>, wildcards: seq<seq<Resource>>) returns (canBuy: bool)
    ensures canBuy == Greedy(cost, Pools(resources, wildcards))
  {
    ghost var start := Pools(resources, wildcards);
    var resourcesLeft := resources;
    var wildcardsLeft := wildcards;
    canBuy := true;
    var i := 0;
    while i < |cost|
      invariant 0 <= i <= |cost|
      invariant canBuy ==> Greedy(cost[i..], Pools(resourcesLeft, wildcardsLeft)) == Greedy(cost, start)
      invariant !canBuy ==> !Greedy(cost, start)
    {
      if canBuy {
        ghost var before := Pools(resourcesLeft, wildcardsLeft);
        canBuy, resourcesLeft, wildcardsLeft := CoverUnit(cost[i], resourcesLeft, wildcardsLeft);
        GreedyAfterCover(cost, i, before, canBuy, Pools(resourcesLeft, wildcardsLeft));
      }
      i := i + 1;
    }
  }

  /** One step of the trading-cost pass at position `i` of the cost. */
  lemma TradeCostAt(cost: seq<Resource>, i: nat, p: Pools, ds: seq<ResourceDiscount>, opponent: seq<Resource>)
    requires i < |cost|
    ensures TradeCost(cost[i..], p, ds, opponent)
         == match Step(p, cost[i])
            case None => Price(cost[i], ds, opponent) + TradeCost(cost[i + 1..], p, ds, opponent)
            case Some(q) => TradeCost(cost[i + 1..], q, ds, opponent)
  {
    assert cost[i..][0] == cost[i];
    assert cost[i..][1..] == cost[i + 1..];
  }

  // ---------------------------------------------------------------------------
  // Trading prices

  /** The first discount for a resource, as `find` picks it. */
  function FirstDiscount(ds: seq<ResourceDiscount>, r: Resource): (d: Option<ResourceDiscount>)
    ensures d.None? <==> forall k :: 0 <= k < |ds| ==> ds[k].kind != r
    ensures d.Some? ==> exists k :: 0 <= k < |ds| && ds[k] == d.value && d.value.kind == r
                                   && forall m :: 0 <= m < k ==> ds[m].kind != r
  {
    if ds == [] then None
    else if ds[0].kind == r then Some(ds[0])
    else
      var d := FirstDiscount(ds[1..], r);
      if d.Some? then
        var k :| 0 <= k < |ds[1..]| && ds[1..][k] == d.value && d.value.kind == r
                 && forall m :: 0 <= m < k ==> ds[1..][m].kind != r;
        assert ds[k + 1] == d.value;
        d
      else d
  }

  /** The price of one unit bought from the bank: the first discount's rate, else 2 plus the opponent's production of it. */
  function Price(r: Resource, ds: seq<ResourceDiscount>, opponent: seq<Resource>): (p: nat)
    ensures (forall k :: 0 <= k < |ds| ==> ds[k].kind != r) ==> p == 2 + multiset(opponent)[r]
    ensures forall k :: 0 <= k < |ds| && ds[k].kind == r && (forall m :: 0 <= m < k ==> ds[m].kind != r) ==>
      p == ds[k].coinsPer
  {
    match FirstDiscount(ds, r)
    case Some(d) => d.coinsPer
    case None => 2 + Count(opponent, r)
  }

  /** What buying every unit of the cost from the bank would take: the sum of the units' prices. */
  function FullPrice(cost: seq<Resource>, ds: seq<ResourceDiscount>, opponent: seq<Resource>): nat {
    if cost == [] then 0 else Price(cost[0], ds, opponent) + FullPrice(cost[1..], ds, opponent)
  }

  /** The greedy pass again, pricing every resource it cannot match instead of stopping. */
  function TradeCost(cost: seq<Resource>, p: Pools, ds: seq<ResourceDiscount>, opponent: seq<Resource>): (c: nat)
    ensures c <= FullPrice(cost, ds, opponent)
    ensures p.direct == [] && p.wild == [] ==> c == FullPrice(cost, ds, opponent)
  {
    if cost == [] then 0
    else
      match Step(p, cost[0])
      case None => Price(cost[0], ds, opponent) + TradeCost(cost[1..], p, ds, opponent)
      case Some(q) => TradeCost(cost[1..], q, ds, opponent)
  }

  /**
   * Both passes make the same matching choices, so a cost the greedy pass
   * covers needs no trading; the converse holds when no price is 0.
   */
  lemma {:induction false} TradeCostZeroIffGreedy(cost: seq<Resource>, p: Pools, ds: seq<ResourceDiscount>, opponent: seq<Resource>)
    ensures Greedy(cost, p) ==> TradeCost(cost, p, ds, opponent) == 0
    ensures (forall k :: 0 <= k < |ds| ==> ds[k].coinsPer > 0) ==>
      (TradeCost(cost, p, ds, opponent) == 0 ==> Greedy(cost, p))
  {
    if cost != [] {
      match Step(p, cost[0])
      case None =>
        if forall k :: 0 <= k < |ds| ==> ds[k].coinsPer > 0 {
          var d := FirstDiscount(ds, cost[0]);
          if d.Some? {
            var k :| 0 <= k < |ds| && ds[k] == d.value && d.value.kind == cost[0]
                     && forall m :: 0 <= m < k ==> ds[m].kind != cost[0];
            assert d.value.coinsPer > 0;
          }
        }
      case Some(q) =>
        TradeCostZeroIffGreedy(cost[1..], q, ds, opponent);
    }
  }

  /** A discount recorded for a resource that had none sets its price to the recorded rate. */
  lemma NewDiscountSetsPrice(r: Resource, rate: nat, ds: seq<ResourceDiscount>, opponent: seq<Resource>)
    requires forall k :: 0 <= k < |ds| ==> ds[k].kind != r
    ensures Price(r, ds + [ResourceDiscount(r, rate)], opponent) == rate
  {
    var ds' := ds + [ResourceDiscount(r, rate)];
    assert ds'[|ds|] == ResourceDiscount(r, rate);
    var d := FirstDiscount(ds', r);
    var k :| 0 <= k < |ds'| && ds'[k] == d.value && d.value.kind == r
             && forall m :: 0 <= m < k ==> ds'[m].kind != r;
  }

  /** A later discount never overrides an earlier one for the same resource. */
  lemma EarlierDiscountWins(r: Resource, d: ResourceDiscount, ds: seq<ResourceDiscount>, opponent: seq<Resource>)
    requires exists k :: 0 <= k < |ds| && ds[k].kind == r
    ensures Price(r, ds + [d], opponent) == Price(r, ds, opponent)
  {
    FirstDiscountOfExtension(ds, d, r);
  }

  lemma {:induction false} FirstDiscountOfExtension(ds: seq<ResourceDiscount>, d: ResourceDiscount, r: Resource)
    requires exists k :: 0 <= k < |ds| && ds[k].kind == r
    ensures FirstDiscount(ds + [d], r) == FirstDiscount(ds, r)
  {
    if ds[0].kind != r {
      assert (ds + [d])[1..] == ds[1..] + [d];
      var k :| 0 <= k < |ds| && ds[k].kind == r;
      assert ds[1..][k - 1].kind == r;
      FirstDiscountOfExtension(ds[1..], d, r);
    }
  }

  // ---------------------------------------------------------------------------
  // War penalties

  datatype WarStep = WarStep(tier: nat, charge: nat)

  /**
   * The looting tier after a war update and the coins it costs. An update
   * that favours the player (positive status for A, negative for B) changes
   * nothing; otherwise tier 2 moves to 5 from distance 6, and tier 0 moves
   * to 2 from distance 3.
   */
  function WarProgress(side: Letter, tier: nat, warStatus: int): (w: WarStep)
    ensures (warStatus > 0 && side == A) || (warStatus < 0 && side == B) ==> w == WarStep(tier, 0)
    ensures w.tier >= tier
    ensures w.tier == tier || (tier == 0 && w.tier == 2) || (tier == 2 && w.tier == 5)
    ensures w.charge == if w.tier == tier then 0 else w.tier
    ensures tier in {0, 2, 5} ==> w.tier in {0, 2, 5}
    ensures w.tier != tier <==>
      && !((warStatus > 0 && side == A) || (warStatus < 0 && side == B))
      && ((tier == 0 && Abs(warStatus) >= 3) || (tier == 2 && Abs(warStatus) >= 6))
  {
    if (warStatus > 0 && side == A) || (warStatus < 0 && side == B) then WarStep(tier, 0)
    else if tier == 2 && Abs(warStatus) >= 6 then WarStep(5, 5)
    else if tier == 0 && Abs(warStatus) >= 3 then WarStep(2, 2)
    else WarStep(tier, 0)
  }

  /** The looting tier a distance calls for: 2 from distance 3, 5 from distance 6. */
  function LootTier(distance: nat): nat {
    if distance >= 6 then 5 else if distance >= 3 then 2 else 0
  }

  /**
   * Starting from tier 0, two updates at the same unfavourable status reach
   * the tier the distance calls for, and the coins charged add up to 2 for
   * tier 2 and 2 + 5 for tier 5; a third update changes nothing.
   */
  lemma WarProgressReachesLootTier(side: Letter, warStatus: int)
    requires !((warStatus > 0 && side == A) || (warStatus < 0 && side == B))
    ensures var first := WarProgress(side, 0, warStatus);
            var second := WarProgress(side, first.tier, warStatus);
            && second.tier == LootTier(Abs(warStatus))
            && first.charge + second.charge == (if second.tier == 5 then 7 else second.tier)
            && WarProgress(side, second.tier, warStatus) == WarStep(second.tier, 0)
  {
  }

  // ---------------------------------------------------------------------------
  // The player

  /** What the players are shown of a player: everything but the connection. */
  datatype PlayerView = PlayerView(
    uid: PlayerUid, name: string, player: Letter, cards: seq<Card>, coins: nat,
    scienceTokens: seq<ScienceProgressToken>, wonders: seq<Wonder>, warLootingStatus: nat)

  class PlayerController {
    const uid: PlayerUid
    const name: string
    const letter: Letter
    var cards: seq<Card>
    var coins: nat
    var scienceTokens: seq<ScienceProgressToken>
    var wonders: seq<Wonder>
    var warLootingStatus: nat
    var resourceDiscounts: seq<ResourceDiscount>

    ghost predicate Valid()
      reads this
    {
      warLootingStatus in {0, 2, 5}
    }

    /** A new player: no cards, tokens, wonders or discounts, 7 coins and tier 0. */
    constructor(uid: PlayerUid, name: string, letter: Letter)
      ensures Valid()
      ensures this.uid == uid && this.name == name && this.letter == letter
      ensures cards == [] && scienceTokens == [] && wonders == [] && resourceDiscounts == []
      ensures coins == 7 && warLootingStatus == 0
    {
      this.uid := uid;
      this.name := name;
      this.letter := letter;
      cards := [];
      scienceTokens := [];
      wonders := [];
      coins := 7;
      warLootingStatus := 0;
      resourceDiscounts := [];
    }

    function View(): PlayerView
      reads this
    {
      PlayerView(uid, name, letter, cards, coins, scienceTokens, wonders, warLootingStatus)
    }

    function OwnPools(): Pools
      reads this
    {
      Pools(Resources(cards), Wildcards(cards))
    }

    /** The player's victory points: every owned card's points are among them, and a point per three coins. */
    function Points(): (p: nat)
      reads this
      ensures forall i :: 0 <= i < |cards| ==> CardPoints(cards[i], cards, coins, wonders) <= p
      ensures p >= coins / 3 + 4 * multiset(scienceTokens)[Agriculture] + 7 * multiset(scienceTokens)[Philosophy]
    {
      VictoryPoints(cards, coins, scienceTokens, wonders)
    }

    function ScienceSymbolCount(): nat
      reads this
    {
      |UniqueScienceSymbols(cards, scienceTokens)|
    }

    function HasLinkSymbol(l: LinkSymbol): (b: bool)
      reads this
      ensures b <==> exists i :: 0 <= i < |cards| && cards[i].providesLink == Some(l)
    {
      l in LinkSymbols(cards)
    }

    function ResourceCount(r: Resource): (n: nat)
      reads this
      ensures n == multiset(Resources(cards))[r]
    {
      Count(Resources(cards), r)
    }

    function CardTypeCount(t: CardType): (n: nat)
      reads this
      ensures n <= |cards|
      ensures n == 0 <==> forall i :: 0 <= i < |cards| ==> TypeOf(cards[i].category) != t
    {
      CountType(cards, t)
    }

    /** The specification of `CanAffordCard`. */
    function Affordable(card: Card): bool
      reads this
    {
      card.coinCost <= coins && Greedy(card.resourceCost, OwnPools())
    }

    /** The specification of `TradingCostForCard`. */
    function TradingCost(card: Card, other: PlayerController): nat
      reads this, other
    {
      TradeCost(card.resourceCost, OwnPools(), resourceDiscounts, Resources(other.cards))
    }

    /** The greedy pass over the resources and, when asked, the player's wildcard groups. */
    method CanAffordCardWithResources(card: Card, resources: seq<Resource>, useWildcards: bool) returns (canBuy: bool)
      ensures canBuy == Greedy(card.resourceCost, Pools(resources, if useWildcards then Wildcards(cards) else []))
    {
      var wildcardResourcesLeft := if useWildcards then Wildcards(cards) else [];
      canBuy := GreedyPass(card.resourceCost, resources, wildcardResourcesLeft);
    }

    method CanAffordCard(card: Card) returns (b: bool)
      ensures b == Affordable(card)
      ensures card.coinCost > coins ==> !b
    {
      if card.coinCost > coins {
        return false;
      }
      b := CanAffordCardWithResources(card, Resources(cards), true);
    }

    /** The coins needed beyond the player's own production to cover the cost. */
    method TradingCostForCard(card: Card, otherPlayer: PlayerController) returns (tradingCost: nat)
      ensures tradingCost == TradingCost(card, otherPlayer)
    {
      var cost := card.resourceCost;
      tradingCost := 0;
      var resourcesLeft := Resources(cards);
      var wildcardsLeft := Wildcards(cards);
      var i := 0;
      while i < |cost|
        invariant 0 <= i <= |cost|
        invariant tradingCost + TradeCost(cost[i..], Pools(resourcesLeft, wildcardsLeft), resourceDiscounts, Resources(otherPlayer.cards))
               == TradingCost(card, otherPlayer)
      {
        var resource := cost[i];
        TradeCostAt(cost, i, Pools(resourcesLeft, wildcardsLeft), resourceDiscounts, Resources(otherPlayer.cards));
        var indexOfResource := IndexOf(resourcesLeft, resource);
        var indexOfWildcard := GroupIndex(wildcardsLeft, resource);
        if indexOfResource == -1 && indexOfWildcard == -1 {
          var discount := FirstDiscount(resourceDiscounts, resource);
          if discount.Some? {
            tradingCost := tradingCost + discount.value.coinsPer;
          } else {
            tradingCost := tradingCost + 2 + otherPlayer.ResourceCount(resource);
          }
        } else if indexOfWildcard != -1 {
          wildcardsLeft := Splice(wildcardsLeft, indexOfWildcard);
        } else {
          resourcesLeft := Splice(resourcesLeft, indexOfResource);
        }
        i := i + 1;
      }
    }

    method CanTradeForCard(card: Card, otherPlayer: PlayerController) returns (b: bool)
      ensures b <==> card.coinCost + TradingCost(card, otherPlayer) <= coins
    {
      var tradingCost := TradingCostForCard(card, otherPlayer);
      b := card.coinCost + tradingCost <= coins;
    }

    method AddCard(card: Card)
      modifies this
      ensures cards == old(cards) + [card]
      ensures coins == old(coins) && scienceTokens == old(scienceTokens) && wonders == old(wonders)
      ensures warLootingStatus == old(warLootingStatus) && resourceDiscounts == old(resourceDiscounts)
    {
      cards := cards + [card];
    }

    /** Takes coins, but never below 0. */
    method ChargeCoins(amount: nat)
      modifies this
      ensures coins == Max0(old(coins) - amount)
      ensures coins <= old(coins)
      ensures cards == old(cards) && scienceTokens == old(scienceTokens) && wonders == old(wonders)
      ensures warLootingStatus == old(warLootingStatus) && resourceDiscounts == old(resourceDiscounts)
    {
      coins := Max0(coins - amount);
    }

    method GiveCoins(amount: nat)
      modifies this
      ensures coins == old(coins) + amount
      ensures cards == old(cards) && scienceTokens == old(scienceTokens) && wonders == old(wonders)
      ensures warLootingStatus == old(warLootingStatus) && resourceDiscounts == old(resourceDiscounts)
    {
      coins := coins + amount;
    }

    /** Applies the looting penalty a new war status calls for. */
    method UpdateWarProgress(warStatus: int)
      requires Valid()
      modifies this
      ensures Valid()
      ensures warLootingStatus == WarProgress(letter, old(warLootingStatus), warStatus).tier
      ensures coins == Max0(old(coins) - WarProgress(letter, old(warLootingStatus), warStatus).charge)
      ensures cards == old(cards) && scienceTokens == old(scienceTokens) && wonders == old(wonders)
      ensures resourceDiscounts == old(resourceDiscounts)
    {
      if (warStatus > 0 && letter == A) || (warStatus < 0 && letter == B) {
        return;
      }
      var magnitude := Abs(warStatus);
      if warLootingStatus == 2 && magnitude >= 6 {
        warLootingStatus := 5;
        ChargeCoins(5);
      } else if warLootingStatus == 0 && magnitude >= 3 {
        warLootingStatus := 2;
        ChargeCoins(2);
      }
    }

    method ApplyResourceDiscount(kind: Resource, coinsPer: nat)
      modifies this
      ensures resourceDiscounts == old(resourceDiscounts) + [ResourceDiscount(kind, coinsPer)]
      ensures cards == old(cards) && coins == old(coins) && scienceTokens == old(scienceTokens)
      ensures wonders == old(wonders) && warLootingStatus == old(warLootingStatus)
    {
      resourceDiscounts := resourceDiscounts + [ResourceDiscount(kind, coinsPer)];
    }
  }
}
