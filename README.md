# Duel card game rules engine, modelled in Dafny

This project models the rules engine of a two-player card game: the
server-side controllers that run one game. A game has two players (A and
B), a turn, a war track, a board of science progress tokens, a draw pile,
and a pyramid of cards called the stage. A player clicks a face-up card on
the stage. The game checks that the card is uncovered, picks how the
player pays (a link symbol, own resources, or buying resources from the
opponent), moves the card to the player and runs the card's purchase
effect. The game also decides the winner. It can be a war victory, six
different science symbols, or the most points once the third age's stage
is empty.

Modules follow the source files:

- `Models` (`models.dfy`) holds the value types: resources, science
  symbols, tokens, cards with their category data, wonders, ages, and the
  purchase effects.
- `Validators` (`validators.dfy`) checks incoming transmissions.
- `WarControl`, `TurnControl` and `ScienceTokens` model the small
  controllers.
- `CardDeck` (`card_deck_controller.dfy`) models the draw pile and its
  reset for each age.
- `CardStage` (`card_stage_controller.dfy`) models the pyramid: building
  it from row templates, exposure, removing a card with its reveals, and
  the view players see.
- `PlayerControl` (`player_controller.dfy`) models one player: production,
  wildcards, link and science symbols, victory points, the greedy
  affordability check, trading prices, coins and war looting.
- `GameControl` (`game_controller.dfy`) models the game: set-up, ages, the
  winner, the card-click flow and the effect handlers.

Objects the source updates in place are classes with `modifies` frames.
Pure computations are functions. The loops that update variables step by
step (the shuffle, the draws, the stage's build and scans, the
affordability and trading checks, the effect handlers) are methods proved
against specification functions. The `forEach` and `filter` passes that
only collect values from the owned cards (`resources`,
`wildcardResource`, `linkSymbols`, `uniqueScienceSymbols`,
`wondersClaimed`, `cardTypeCount` and the point sums of `victoryPoints`)
are recursive functions over the card list.

Some things the code relies on are parameters of the model:

- `Math.random` is a nondeterministic in-range index (`:|`).
- `uuidv4` is a supply of consecutive numbers (`CardDeck.IdSupply`).
- The card catalogues and stage templates are function-typed constants.
- The war track's update rule and its points rule are function-typed
  constants. These members are called by the code but are not in the war
  controller's source.
- A thrown error is an `Err`/`Failed` result carrying the same message.

The game controller calls `getCard`, `isClickable` and `isEmpty` on the
stage, but the stage controller's source has no such members. The model
defines them from their names:

- `GetCard` returns the first face-up card with that uid.
- `IsClickable` is the exposure test `Uncovered`, which also covers the
  edge cells.
- `IsEmpty` means every cell is a placeholder.

The war controller in the source only stores and resets a status. The
model keeps its `updateStatus` and `getVictoryPointsForPlayer` as given
rules, with no thresholds of their own.

## Model

| member | source | states |
|---|---|---|
| Validators.IsValid | src/server/validators.ts:28-61 | a transmission is valid iff it is an object whose `type` is the string START_GAME or STAGE_CARD_CLICKED, with exactly one key for START_GAME and exactly two keys for STAGE_CARD_CLICKED |
| Validators.AssertValid | src/server/validators.ts:68-74 | succeeds exactly on valid transmissions; otherwise fails with "Incoming transmission is invalid." |
| Validators.FalsyOrNonObjectIsInvalid | src/server/validators.ts:31-32 | a falsy value or a non-object is never valid |
| Validators.BadTypeMemberIsInvalid | src/server/validators.ts:33-41 | a missing, non-string or unknown `type` makes an object invalid |
| Validators.StartGameValidIffOnlyKey | src/server/validators.ts:47-48 | a START_GAME object is valid iff `type` is its only key |
| Validators.StageCardClickedAcceptsAnySecondMember | src/server/validators.ts:49-50 | a STAGE_CARD_CLICKED object with any second key is valid, whatever that key is called |
| WarControl.WarController.constructor | src/game/war.controller.ts:8-10 | a new war track is at score 0 |
| WarControl.WarController.Reset | src/game/war.controller.ts:12-14 | reset puts the track back at score 0 |
| WarControl.WarController.UpdateStatus | src/game/game.controller.ts:190 | the new status is the update rule applied to the old status and the delta |
| TurnControl.Toggled | src/game/turn.controller.ts:32 | toggling always changes the letter |
| TurnControl.TurnController.constructor | src/game/turn.controller.ts:9-14 | a new controller has A to play, both uids stored, and the hook not yet fired |
| TurnControl.TurnController.Reset | src/game/turn.controller.ts:16-19 | reset gives the turn to A and fires the hook once |
| TurnControl.TurnController.Set | src/game/turn.controller.ts:21-29 | A's uid or "A" selects A, else B's uid or "B" selects B, and either fires the hook; any other value changes nothing |
| TurnControl.TurnController.Toggle | src/game/turn.controller.ts:31-34 | the turn passes to the other letter and the hook fires once |
| TurnControl.TurnController.AsUid | src/game/turn.controller.ts:40-42 | the uid of the player whose letter holds the turn |
| TurnControl.TurnController.IsTurn | src/game/turn.controller.ts:44-46 | true iff the argument is the current uid or the current letter |
| TurnControl.TurnController.ConfirmTurn | src/game/turn.controller.ts:48-50 | the check accepts exactly the uid of the player to move, read when the check is called |
| TurnControl.ToggleTwiceRestores | src/game/turn.controller.ts:31-34 | two toggles give back the original turn |
| TurnControl.ConfirmTurnTracksToggle | src/game/turn.controller.ts:48-50 | a check made before a toggle follows the turn after it |
| ScienceTokens.BoardTokens | src/game/science-token-controller.ts:11-13 | the tokens on a board list, in order; a fully occupied board gives them all, slot by slot |
| ScienceTokens.Occupied | src/game/science-token-controller.ts:24-30 | a board built from tokens is fully occupied and reads back exactly those tokens |
| ScienceTokens.ScienceTokenController.constructor | src/game/science-token-controller.ts:15-18 | a new controller has an empty supply and an empty board |
| ScienceTokens.ScienceTokenController.NextToken | src/game/science-token-controller.ts:41-48 | an empty supply fails; otherwise one supply token is removed and returned, and the supply loses exactly that token |
| ScienceTokens.ScienceTokenController.DrawBoard | src/game/science-token-controller.ts:24-30 | five draws from a full supply give five board tokens; board plus supply is the old supply as a multiset |
| ScienceTokens.ScienceTokenController.Reset | src/game/science-token-controller.ts:20-31 | after reset, five tokens lie on the board and five stay in the supply; together they are the ten token kinds, each once |
| ScienceTokens.ResetLeavesNoDuplicates | src/game/science-token-controller.ts:20-31 | a board and a supply that together are the ten kinds, as a multiset, never repeat a token |
| ScienceTokens.ScienceTokenController.GetToken | src/game/science-token-controller.ts:33-39 | as written: a range error iff index < 0 or index > board length; an in-range index returns its slot |
| ScienceTokens.ScienceTokenController.GetTokenChecked | src/game/science-token-controller.ts:33-39 | corrected: a range error iff index < 0 or index >= board length; otherwise the slot at the index |
| ScienceTokens.GetTokenAcceptsOnePastEnd | src/game/science-token-controller.ts:34 | index equal to the board length passes the guard and reads `undefined`; the two versions agree on every other index |
| CardDeck.WithBack | src/game/card-deck.controller.ts:23-29 | every catalogue card, in order, with the age's back and nothing else changed |
| CardDeck.Shuffle | src/game/card-deck.controller.ts:96-107 | the shuffled list is a permutation of the input |
| CardDeck.ShufflePile | src/game/card-deck.controller.ts:96-107 | shuffling a shared list returns a permutation of it and leaves that list empty |
| CardDeck.IdSupply.Fresh | src/game/card-deck.controller.ts:82 | each fresh uid differs from all earlier ones: it is the next number |
| CardDeck.CardDeckController.constructor | src/game/card-deck.controller.ts:16-18 | a new pile is empty |
| CardDeck.CardDeckController.Deck | src/game/card-deck.controller.ts:8-14 | the copy of the pile has the pile's size |
| CardDeck.CardDeckController.Draw | src/game/card-deck.controller.ts:87-94 | an empty pile fails with "There are no more cards in the deck to draw." and stays empty; otherwise some index is removed and its card returned, the rest keeping their order |
| CardDeck.CardDeckController.DiscardThree | src/game/card-deck.controller.ts:31-33 | three draws succeed iff the pile has at least three cards; the pile then shrinks by three and only loses cards |
| CardDeck.CardDeckController.Restamp | src/game/card-deck.controller.ts:78-84 | every card, in order, is face up and has a fresh uid, consecutive from the supply |
| CardDeck.CardDeckController.Reset | src/game/card-deck.controller.ts:20-85 | corrected: succeeds iff the catalogue has three or more cards; the pile uses the catalogue minus three discards, plus three guild cards in the third age, shuffled and restamped; the guild catalogue is left intact |
| CardDeck.CardDeckController.ResetEmptyingGuild | src/game/card-deck.controller.ts:58-69 | as written: a third-age reset empties the shared guild catalogue |
| CardDeck.SecondThirdAgeResetFindsNoGuildCards | src/game/card-deck.controller.ts:62 | as written: after one game's third age, the next game sharing the catalogue finds fewer than three guild cards |
| CardDeck.ThirdAgeResetKeepsGuildCards | src/game/card-deck.controller.ts:62-68 | with the copying shuffle, the guild catalogue is the same after any third-age reset |
| CardStage.SetCell | src/game/card-stage.controller.ts:130-132 | writing one cell keeps the shape and changes only that cell |
| CardStage.SameShapeKeepsRectangular | src/game/card-stage.controller.ts:130-132 | a grid of the same shape as a rectangular one is rectangular |
| CardStage.Reveal | src/game/card-stage.controller.ts:146-168 | a cell is turned face up iff it is in range, face down and uncovered (the cell below and the in-range diagonal are placeholders, or it is the last row); otherwise nothing changes |
| CardStage.RevealOnlyFlips | src/game/card-stage.controller.ts:164-167 | a reveal changes at most one cell, from face down to face up showing the hidden card |
| CardStage.RemoveAt | src/game/card-stage.controller.ts:130-141 | the removed cell becomes a placeholder; only the two cells it covered can also change |
| CardStage.Cleared | src/game/card-stage.controller.ts:130-132 | clearing a cell to a placeholder keeps the grid rectangular and its width |
| CardStage.RemoveAtReveals | src/game/card-stage.controller.ts:134-141 | each of the two cells the removed card covered (the one above and the row's diagonal) is turned face up iff it is face down and uncovered once the removed cell is a placeholder; otherwise it is left as it was |
| CardStage.RemoveVisit | src/game/card-stage.controller.ts:127-141 | a visit keeps the grid's shape and its rectangularity |
| CardStage.RemoveVisitChangesIffHeld | src/game/card-stage.controller.ts:127-131 | a visit changes the grid iff the cell holds the uid face up, and then leaves a placeholder in that cell |
| CardStage.RemoveFrom | src/game/card-stage.controller.ts:124-144 | the row-major removal scan keeps the grid's shape |
| CardStage.RemoveFromWithoutMatch | src/game/card-stage.controller.ts:124-144 | with no face-up match from a point on, the scan from there changes nothing |
| CardStage.RemoveFromSkips | src/game/card-stage.controller.ts:124-144 | cells that do not hold the uid are skipped |
| CardStage.RemoveSingleMatch | src/game/card-stage.controller.ts:124-144 | when one cell holds the uid face up, removal is `RemoveAt` of that cell |
| CardStage.RemoveWithoutMatch | src/game/card-stage.controller.ts:124-144 | removing a uid that is not face up on the grid leaves it unchanged |
| CardStage.ClickableAt | src/game/card-stage.controller.ts:98-117 | as written: throws iff the card is not in the last row, the cell below is a placeholder, and the diagonal is off the grid; otherwise it answers whether the card is uncovered |
| CardStage.EdgeCardMakesClickableThrow | src/game/card-stage.controller.ts:103-117 | on any stage, a card in the edge column (last column of an even row, first column of an odd row) with a placeholder below it makes the as-written test throw |
| CardStage.ClickableFromWithoutMatch | src/game/card-stage.controller.ts:93-119 | with no match from a point on, the scan keeps its running flag |
| CardStage.ClickableFromSkips | src/game/card-stage.controller.ts:95-96 | cells not holding the uid face up leave the scan's flag alone |
| CardStage.ClickableSingleMatch | src/game/card-stage.controller.ts:90-122 | when exactly one cell holds the card the scan's answer is `ClickableAt` of that cell; in the last row it is true |
| CardStage.ClickableWithoutMatch | src/game/card-stage.controller.ts:90-122 | a card that is not face up on the grid is not clickable |
| CardStage.CardStageController.Clickable | src/game/card-stage.controller.ts:90-122 | the nested loops compute the row-major scan `ClickableFrom` |
| CardStage.CellChars | src/game/card-stage.controller.ts:64-83 | the template characters that make a cell (U, D and P), in order |
| CardStage.Draws | src/game/card-stage.controller.ts:66-77 | a template row draws one card per U or D; never more than its cells |
| CardStage.Kinds | src/game/card-stage.controller.ts:64-83 | one cell kind per cell character |
| CardStage.Sanitized | src/game/card-stage.controller.ts:8-25 | the players' view of the stage has the stage's shape |
| CardStage.SanitizedHidesFaceDownCards | src/game/card-stage.controller.ts:14-19 | a face-down cell shows only its back, so two stages that differ in hidden cards look alike |
| CardStage.SanitizedShowsOpenCells | src/game/card-stage.controller.ts:12-13 | face-up cards and placeholders are shown as they are |
| CardStage.CardStageController.constructor | src/game/card-stage.controller.ts:27-29 | a new stage is empty and drawn from the given pile |
| CardStage.CardStageController.View | src/game/card-stage.controller.ts:8-25 | the sanitized view has one row per stage row |
| CardStage.CardStageController.GetCard | src/game/game.controller.ts:136 | no card iff no cell holds the uid face up; a found card has the uid and lies face up on the stage |
| CardStage.CardStageController.IsClickable | src/game/game.controller.ts:142 | true iff some cell holds the card face up and that cell is uncovered |
| CardStage.CardStageController.IsEmpty | src/game/game.controller.ts:109 | true iff every cell is a placeholder |
| CardStage.CardStageController.Set | src/game/card-stage.controller.ts:31-88 | succeeds iff the pile holds the age's draws; the stage then has one row per template, each row following its template; the pile shrinks by the draws and stage plus pile is the old pile; a failure leaves the pile empty |
| CardStage.CardStageController.BuildRow | src/game/card-stage.controller.ts:49-87 | one row follows its template, drawing cards in order; fails with the draw's message when the pile runs out |
| CardStage.CardStageController.RevealIfAble | src/game/card-stage.controller.ts:146-168 | the stage becomes `Reveal` of the old stage at the cell |
| CardStage.CardStageController.VisitCell | src/game/card-stage.controller.ts:127-141 | one step of the scan: the stage becomes the visit of that cell, so a face-up match is taken away and the cards it covered revealed |
| CardStage.CardStageController.Remove | src/game/card-stage.controller.ts:124-144 | the stage becomes the row-major removal scan of the old stage |
| CardStage.FindFaceUp | src/game/game.controller.ts:136 | the row-major search finds a face-up card with the uid iff one exists |
| CardStage.FindInRow | src/game/game.controller.ts:136 | the search within a row finds a face-up card with the uid iff the row holds one |
| PlayerControl.Resources | src/game/player.controller.ts:38-51 | a resource is produced iff some owned brown or gray card produces it |
| PlayerControl.ResourcesOfAppend | src/game/player.controller.ts:41-48 | one more card appends exactly its own production, in order, to the production of the others |
| PlayerControl.ResourcesCounted | src/game/player.controller.ts:38-51 | each resource occurs in the production as often as the owned cards produce it, summed card by card (`ProducedBy`), so neither the count nor the trading price misses or doubles a unit |
| PlayerControl.Wildcards | src/game/player.controller.ts:53-71 | every wildcard group is the brown group (wood, stone, clay) or the gray group (glass, papyrus), and there are no more groups than cards |
| PlayerControl.WildcardsCounted | src/game/player.controller.ts:56-67 | the brown group occurs once per card granting any brown resource and the gray group once per card granting any gray one, so there are exactly as many groups as granting cards |
| PlayerControl.WildcardsGranted | src/game/player.controller.ts:56-67 | a group is among the wildcards iff some owned card grants it |
| PlayerControl.LinkSymbols | src/game/player.controller.ts:73-83 | a symbol is held iff some owned card provides it |
| PlayerControl.GreenSymbols | src/game/player.controller.ts:85-99 | the different science symbols of the green cards, each once |
| PlayerControl.UniqueScienceSymbols | src/game/player.controller.ts:85-102 | the green symbols, plus Law once when the Law token is held, and only then |
| PlayerControl.WondersClaimed | src/game/player.controller.ts:104-108 | exactly the owned wonders that have a card spent on them |
| PlayerControl.CountType | src/game/player.controller.ts:332-336 | at most the number of cards; zero iff no card has that type |
| PlayerControl.CountTypeIsMultiplicity | src/game/player.controller.ts:332-336 | the count is how often the type occurs among the cards' types, card by card |
| PlayerControl.Count | src/game/player.controller.ts:254-258 | the number of occurrences of a resource |
| PlayerControl.CardPoints | src/game/player.controller.ts:114-152 | only blue, green, yellow and purple cards score; brown, gray and red ones score nothing |
| PlayerControl.BuildingPoints | src/game/player.controller.ts:113-152 | every card's points are part of the building points, and the building points are 0 iff no card scores |
| PlayerControl.TokenValue | src/game/player.controller.ts:158-176 | a token scores iff it is Agriculture, Philosophy, or Mathematics with at least one token held |
| PlayerControl.TokenPoints | src/game/player.controller.ts:157-179 | every token's value is part of the token points, which are 0 iff no token scores |
| PlayerControl.VictoryPoints | src/game/player.controller.ts:110-185 | building points, plus 4 per Agriculture, 7 per Philosophy and 3 per token held for each Mathematics, plus one point per three coins |
| PlayerControl.PlayerController.Points | src/game/player.controller.ts:110-185 | the player's total includes every owned card's points, a point per three coins and the Agriculture and Philosophy points |
| PlayerControl.TokenPointsClosedForm | src/game/player.controller.ts:158-179 | the token points are 4 per Agriculture, 7 per Philosophy, and 3 per Mathematics for each token held |
| PlayerControl.AddingCardNeverLowersPoints | src/game/player.controller.ts:110-185 | gaining a card never lowers a player's victory points |
| PlayerControl.BuildingPointsGrow | src/game/player.controller.ts:113-156 | the building points of any cards never drop when the owned cards grow |
| PlayerControl.PerCardTypeTotalGrows | src/game/player.controller.ts:140-150 | per-type points never drop when the owned cards grow |
| PlayerControl.CountTypeOfAppend | src/game/player.controller.ts:332-336 | adding a card raises its own type's count by one and leaves every other type's count unchanged |
| PlayerControl.IndexOf | src/game/player.controller.ts:225 | the first index of a resource, or -1 iff it is absent |
| PlayerControl.GroupIndex | src/game/player.controller.ts:226-228 | the first wildcard group holding a resource, or -1 iff none does |
| PlayerControl.Step | src/game/player.controller.ts:230-240 | one unit of cost is covered iff own production or a wildcard has it; a wildcard is used before production |
| PlayerControl.Greedy | src/game/player.controller.ts:212-244 | an accepted cost never has more units than there are direct resources and wildcard groups, since each unit uses one up |
| PlayerControl.GreedyIsSound | src/game/player.controller.ts:212-244 | whenever the greedy check accepts a cost, there is a real assignment of production and wildcards covering it |
| PlayerControl.WildcardFirstCanRefuseAffordableCost | src/game/player.controller.ts:236-240 | using a wildcard first refuses the cost [Stone, Wood] for a player producing Stone with one brown wildcard, although it can be covered |
| PlayerControl.GreedyWithoutWildcardsIsExact | src/game/player.controller.ts:212-244 | without wildcards the check accepts a cost iff production contains it as a multiset |
| PlayerControl.GreedyAt | src/game/player.controller.ts:221-242 | one greedy step: the rest of the cost after one unit is checked against the pools left by that step |
| PlayerControl.TradeCostAt | src/game/player.controller.ts:275-295 | one step of the trading cost: a unit not covered adds its price and the rest is priced from there |
| PlayerControl.FirstDiscount | src/game/player.controller.ts:280-284 | no discount iff none is for the resource; otherwise the first discount for it |
| PlayerControl.Price | src/game/player.controller.ts:280-289 | a resource with a discount trades at the first discount's rate; one without trades at 2 plus the opponent's production of it |
| PlayerControl.TradeCost | src/game/player.controller.ts:267-298 | trading never costs more than buying every unit at its price, and costs exactly that when the player has no production and no wildcards |
| PlayerControl.TradeCostZeroIffGreedy | src/game/player.controller.ts:267-298 | a cost the player covers needs no trading; with positive discounts, a zero trading cost means the player covers it |
| PlayerControl.NewDiscountSetsPrice | src/game/player.controller.ts:280-284 | a first discount for a resource sets its price to the discount's rate |
| PlayerControl.EarlierDiscountWins | src/game/player.controller.ts:280-284 | a later discount for a resource that already has one does not change its price |
| PlayerControl.FirstDiscountOfExtension | src/game/player.controller.ts:280-284 | appending a discount keeps an earlier first match |
| PlayerControl.WarProgress | src/game/player.controller.ts:313-330 | the tier changes iff the status is not in the player's favour and either the tier is 0 at distance 3 or more, or it is 2 at distance 6 or more; it then rises to 2 or to 5, and the charge is the new tier; otherwise nothing is charged; the tiers stay in {0, 2, 5} |
| PlayerControl.WarProgressReachesLootTier | src/game/player.controller.ts:322-328 | from tier 0, two updates at one unfavourable status reach tier 0 below distance 3, 2 below distance 6 and 5 from 6; the charges add up to 2 for tier 2 and 7 for tier 5; a third update changes nothing |
| PlayerControl.PlayerController.constructor | src/game/player.controller.ts:187-206 | a new player has 7 coins, looting tier 0, and no cards, tokens, wonders or discounts |
| PlayerControl.PlayerController.HasLinkSymbol | src/game/player.controller.ts:208-210 | true iff some owned card provides the symbol |
| PlayerControl.PlayerController.ResourceCount | src/game/player.controller.ts:254-258 | how often the resource is among the player's production |
| PlayerControl.PlayerController.CardTypeCount | src/game/player.controller.ts:332-336 | the number of owned cards of the type; zero iff none |
| PlayerControl.PlayerController.CanAffordCardWithResources | src/game/player.controller.ts:212-244 | the greedy check of the cost against the resources and, when asked, the player's wildcard groups |
| PlayerControl.GreedyPass | src/game/player.controller.ts:217-243 | the loop over the cost with copied lists and a running flag gives exactly the greedy check `Greedy` |
| PlayerControl.CoverUnit | src/game/player.controller.ts:225-240 | one unit of cost: covered iff a direct resource or a wildcard group has it, and the lists left are those of one greedy step |
| PlayerControl.GreedyAfterCover | src/game/player.controller.ts:224-241 | an uncovered unit makes the whole check fail; a covered one leaves the check of the rest of the cost against the lists left |
| PlayerControl.PlayerController.CanAffordCard | src/game/player.controller.ts:246-252 | false when the coin cost exceeds the coins; otherwise the greedy check against own production and wildcards |
| PlayerControl.PlayerController.TradingCostForCard | src/game/player.controller.ts:267-298 | the loop gives the trading cost: the price of each unit that production and wildcards leave uncovered |
| PlayerControl.PlayerController.CanTradeForCard | src/game/player.controller.ts:260-265 | true iff the coin cost plus the trading cost is within the coins |
| PlayerControl.PlayerController.AddCard | src/game/player.controller.ts:300-302 | the card is appended and nothing else changes |
| PlayerControl.PlayerController.ChargeCoins | src/game/player.controller.ts:304-307 | coins drop by the amount, never below 0; nothing else changes |
| PlayerControl.PlayerController.GiveCoins | src/game/player.controller.ts:309-311 | coins rise by the amount; nothing else changes |
| PlayerControl.PlayerController.UpdateWarProgress | src/game/player.controller.ts:313-330 | the tier and the coin charge follow `WarProgress`; only coins and tier change |
| PlayerControl.PlayerController.ApplyResourceDiscount | src/game/player.controller.ts:338-343 | the discount is appended; nothing else changes |
| GameControl.PaymentIsExact | src/game/game.controller.ts:157-167 | the chosen route never charges more than the buyer has, and buying outright costs what trading would |
| GameControl.PaymentFor | src/game/game.controller.ts:155-167 | the link route applies iff the card has a link some owned card provides; buying outright means the coins cover the coin cost and no trading is needed; a card is refused only when even trading costs more than the coins |
| GameControl.Charge | src/game/game.controller.ts:157-166 | buying outright or by trade costs at least the coin cost, and no route costs more than the coin cost plus trading |
| GameControl.Pay | src/game/game.controller.ts:155-167 | the card is bought iff some route applies; the coins drop by that route's price and nothing else of the player changes |
| GameControl.OneCoinDiscounts | src/game/game.controller.ts:198-204 | one 1-coin discount per listed resource, in order |
| GameControl.DiscountCardPricesAtOne | src/game/game.controller.ts:198-204 | after a discount card, a listed resource without an earlier discount trades at 1 coin |
| GameControl.Decide | src/game/game.controller.ts:100-125 | precedence: war victory, then A's six symbols, then B's; no winner iff the war goes on, neither has six and the third age is not over; when it is over, a tie iff the totals are equal and otherwise the larger total wins |
| GameControl.GameController.InProgress | src/game/game.controller.ts:74 | corrected: in progress iff there is no winner yet |
| GameControl.GameController.State | src/game/game.controller.ts:68-79 | as written: the snapshot reports `inProgress` iff there is a winner |
| GameControl.GameController.TotalPoints | src/game/game.controller.ts:110-113 | a player's final score includes a point per three coins and the war's points for their side |
| GameControl.GameController.GetWinner | src/game/game.controller.ts:100-125 | A wins iff the war is A's, or A has six symbols, or neither has and the last age is over with A ahead on points; B likewise, after A; a tie iff the last age is over with neither at six symbols and equal points |
| GameControl.GameController.NewGameReportedAsNotInProgress | src/game/game.controller.ts:74 | a new game has no winner, yet the as-written snapshot reports it as not in progress |
| GameControl.GameController.constructor | src/game/game.controller.ts:33-66 | a new game keeps the room uid and both players' uids and names as given; it is in the first age with A to play, the war at 0, both players with 7 coins, looting tier 0 and no cards, tokens, wonders or discounts, five tokens on the board and the first age's pile and stage set |
| GameControl.NewGameSnapshot | src/game/game.controller.ts:33-74 | a game just started is in progress, yet its snapshot, as written, reports it as not in progress |
| GameControl.GameController.GetPlayer | src/game/game.controller.ts:127-129 | A for A's uid, B for any other uid |
| GameControl.GameController.GetOtherPlayer | src/game/game.controller.ts:131-133 | A for B's uid, B for any other uid |
| GameControl.GameController.BuyerAndOpponentDifferForKnownUids | src/game/game.controller.ts:127-133 | buyer and opponent differ iff the uid is one of the two players'; an unknown uid makes B both |
| GameControl.GameController.NextAge | src/game/game.controller.ts:81-98 | from the third age it fails with "No more ages." and changes nothing; otherwise the age steps on and the pile and stage are set up for it |
| GameControl.SetUpAge | src/game/game.controller.ts:96-97 | the pile is reset and the stage set from it; success iff the catalogue and the draws fit; either failure leaves the pile empty |
| GameControl.GameController.SignedPoints | src/game/game.controller.ts:185-190 | the war delta is minus the points when A buys, the points otherwise |
| GameControl.GameController.ProcessArmyPoints | src/game/game.controller.ts:181-196 | the status follows the update rule with the signed points; unless the war ended, both players' tiers and coins follow `WarProgress`; for an unknown uid B's tier and coins follow two updates in a row and A is untouched |
| GameControl.GameController.ApplyResourceDiscount | src/game/game.controller.ts:198-204 | the buyer gains the 1-coin discounts; nothing else changes |
| GameControl.GameController.ProcessCoinCard | src/game/game.controller.ts:206-208 | the buyer gains the coins; nothing else changes |
| GameControl.GameController.ProcessCoinsPerCardTypeCard | src/game/game.controller.ts:210-218 | the buyer gains the coins times the number of own cards of the type |
| GameControl.GameController.ProcessCoinsPerCardTypes | src/fixtures/card-actions.ts:34-47 | the buyer gains the coins for each listed type in turn, in total the per-type sum |
| GameControl.GameController.ProcessCoinsPerWonderCard | src/game/game.controller.ts:220-227 | the buyer gains the coins times the number of claimed wonders |
| GameControl.GameController.RunEffect | src/fixtures/card-actions.ts:10-55 | each effect calls its handler: coin effects pay `EffectCoins`, a discount effect adds discounts, only the army effect moves the war or touches the other player, and even then only their coins and tier; an army effect keeps both players' cards, tokens, wonders and discounts; after an army effect both players' tiers and coins are the looting outcome `Looted` of the new status, which leaves them alone once the war is won |
| GameControl.GameController.Take | src/game/game.controller.ts:169-178 | the card leaves the stage, joins the buyer's cards, and then its effect runs; the buyer keeps their tokens and wonders, their tier unless the effect is an army one and their discounts unless it is a discount one; only an army effect moves the war or reaches the other player, and then both players' tiers and coins are the looting outcome of the new status |
| GameControl.GameController.OnCardClicked | src/game/game.controller.ts:135-179 | an unknown card fails with "Cannot find that card." and a covered one with "Cannot click that card.", both changing nothing; otherwise the first payment route applies, or nothing happens when none does; a bought card leaves the stage for the buyer, who pays the route's price and gains the effect's coins or discounts; the war moves only for an army effect, and then both players' tiers and coins are the looting outcome of the new status applied to their coins after the payment (tiers and coins unchanged once the war is won); the other player is untouched otherwise and keeps their cards, tokens, wonders and discounts always; the buyer keeps their tokens and wonders, and their tier and discounts unless the effect is the one that moves them |
| GameControl.GameController.Buy | src/game/game.controller.ts:155-178 | the card is bought iff a payment route applies; nothing changes when none does; after a purchase the stage, the buyer's cards and coins, the discounts, the war and both players' looting are as `Purchased` describes for the route's charge, and the buyer keeps their tokens, wonders and, unless the effect moves them, their tier and discounts |
| GameControl.GameController.OnStageCardClicked | src/game/game.controller.ts:42-54 | the listener only fires for the player to move; a transmission without a card fails with the TypeError of reading its uid and changes nothing; otherwise the click succeeds iff the card is on the stage and exposed, a failed click changes nothing at all, and the game ends up exactly as the stage click itself leaves it (`Clicked`: nothing changed when no payment route applies, else the purchase at the route's charge); after a click that does not fail the turn passes |

## Left out

- The WebSocket layer is not modelled: connections, the listener
  registry, sending state, rooms and REST. `addListener` is modelled as
  the turn's hook counting its calls. The `conn` field that `sanitized`
  strips from a player is not part of the model.
- Math.random and uuidv4 are nondeterministic choices. The model does not
  capture that the choices are uniform; it captures only that the indices
  are in range and the uids are fresh.
- The card catalogues, guild cards and stage templates are parameters.
  Their contents (the fixture files) are not part of this model.
- GameControl.GameController.constructor requires a first-age catalogue
  big enough for the three discards and the stage draws. With a smaller
  one the source's `draw` throws out of the constructor; the model does
  not cover that.
- GameControl.GameController.constructor also requires at least three
  guild cards, although the constructor only sets up the first age and
  never reads them. The requirement is part of the game's invariant, so
  that the third age can be set up later. With fewer guild cards the
  source does not throw: `guildCards[i]` is `undefined` and the final map
  turns it into an object with only `faceDown` and `uid`. A `Card` cannot
  represent such an object. Under the corrected reset the catalogue never
  shrinks, so a catalogue that meets the requirement in one game meets it
  in every later game.
- CardDeck.CardDeckController.Reset requires at least three guild cards in
  the third age, for the same reason.
- NextAge (GameControl.GameController.NextAge) resets the pile with the
  corrected CardDeck.CardDeckController.Reset. The source's third-age
  reset empties the shared guild catalogue (see Findings); that
  as-written reset is modelled separately, as
  CardDeck.CardDeckController.ResetEmptyingGuild.
- SetUpAge (GameControl.SetUpAge) uses the corrected reset as well, so a
  modelled game never empties the guild catalogue.
- WarControl.WarController.UpdateStatus and VictoryPointsForPlayer are
  given rules, because the war controller's source does not define them.
  The war track's victory thresholds are not modelled.
- CardStage.CardStageController.GetCard, IsClickable and IsEmpty are
  modelled from their names, because the stage controller's source does
  not define them.
- Wonder scoring is left out: the source only marks it as to do. Wonders
  count only as claimed or not.
- Coin amounts, costs and points are `nat`/`int`, not JavaScript numbers.
  No floating point or overflow is modelled.
- CardStage.CardStageController.Set: a failing set leaves a partly built
  stage. The model states only that the pile is then empty, not what the
  partial stage holds.
- GameControl.GameController.OnCardClicked uses the corrected exposure
  test. The as-written `clickable`, which can throw at the edge, is
  modelled separately in CardStage.
- The exception the card-click listener lets escape is modelled as a
  `Failed` outcome that also skips the toggle of the turn.
- GameControl.GameController.OnStageCardClicked takes the `card` member as
  an optional uid. A `card` member that is present but not an object, for
  instance a number, has no `uid` either. The source would then look up
  `undefined` and fail with "Cannot find that card.". The model has no
  such value.

## Findings

| source | as written | input that shows it | evidently intended | confidence | as-written member | corrected member |
|---|---|---|---|---|---|---|
| src/game/card-stage.controller.ts:107 | an even-row card reads the cell below and to the right before checking for the last column (line 114 does the same for the first column of an odd row), so that read is past the row's end | a two-row stage where the face-up card sits in the last column of row 0 and the cell below it is a placeholder | the edge test guards the read, as `revealIfAble` does at lines 155-161 | not executed | CardStage.EdgeCardMakesClickableThrow | CardStage.CardStageController.IsClickable |
| src/game/science-token-controller.ts:34 | the guard rejects `index > length`, so `index == length` passes and returns `undefined` | `getToken(5)` on a board of five tokens | reject `index >= length` | not executed | ScienceTokens.GetTokenAcceptsOnePastEnd | ScienceTokens.ScienceTokenController.GetTokenChecked |
| src/game/card-deck.controller.ts:62 | `shuffle(GuildCards)` splices the shared guild catalogue empty | two third-age resets that share the guild catalogue: the second finds no guild cards | shuffle a copy, leaving the catalogue intact | not executed | CardDeck.SecondThirdAgeResetFindsNoGuildCards | CardDeck.ThirdAgeResetKeepsGuildCards |
| src/game/game.controller.ts:74 | `inProgress` is `getWinner() !== null`, which is true only once someone has won | a new game: there is no winner, and the snapshot says it is not in progress | `getWinner() === null` | not executed | GameControl.GameController.NewGameReportedAsNotInProgress | GameControl.GameController.InProgress |
