/**
 * The card pyramid of the current age: a grid of cells that hold a card
 * face up, a card face down, or nothing (a placeholder). Rows alternate
 * in how they overlap: a card in an even row is covered by the cells at
 * the same column and one column to the right in the next row, a card in
 * an odd row by the same column and one column to the left.
 */
module CardStage {
  import opened Models
  import opened CardDeck

  /** A face-down cell keeps the hidden card so that it can be revealed. */
  datatype Cell = FaceUp(card: Card) | FaceDown(hidden: Card) | Placeholder

  type Grid = seq<seq<Cell>>

  /** The width everything uses is that of the first row, so every row must have it. */
  predicate Rectangular(g: Grid) {
    forall i :: 0 <= i < |g| ==> |g[i]| == |g[0]|
  }

  function Width(g: Grid): nat {
    if g == [] then 0 else |g[0]|
  }

  predicate SameShape(g: Grid, h: Grid) {
    |g| == |h| && forall i :: 0 <= i < |g| ==> |g[i]| == |h[i]|
  }

  predicate InGrid(g: Grid, row: int, col: int) {
    0 <= row < |g| && 0 <= col < |g[row]|
  }

  /** The grid with one cell replaced. */
  function SetCell(g: Grid, row: nat, col: nat, x: Cell): (h: Grid)
    requires InGrid(g, row, col)
    ensures SameShape(g, h)
    ensures h[row][col] == x
    ensures forall i, j :: InGrid(g, i, j) && (i != row || j != col) ==> h[i][j] == g[i][j]
  {
    g[row := g[row][col := x]]
  }

  lemma SameShapeKeepsRectangular(g: Grid, h: Grid)
    requires Rectangular(g) && SameShape(g, h)
    ensures Rectangular(h) && Width(h) == Width(g)
  {
  }

  // ---------------------------------------------------------------------------
  // Which cells cover which

  /** The second covering column in the next row: right of an even row's card, left of an odd row's. */
  function Diagonal(row: nat, col: int): int {
    if row % 2 == 0 then col + 1 else col - 1
  }

  /**
   * Whether nothing lies on the card at (row, col): it is in the last row,
   * or the cell below is empty and so is the diagonal one when the grid has it.
   */
  predicate Uncovered(g: Grid, row: nat, col: nat)
    requires Rectangular(g) && InGrid(g, row, col)
  {
    || row == |g| - 1
    || (&& g[row + 1][col].Placeholder?
        && (0 <= Diagonal(row, col) < Width(g) ==> g[row + 1][Diagonal(row, col)].Placeholder?))
  }

  // ---------------------------------------------------------------------------
  // Revealing

  /**
   * The reveal of (row, col), with the source's guard order: out of range
   * and face-up or empty cells are left alone, and a card not in the last
   * row needs the cell below and the diagonal cell (unless the card is at
   * the matching edge) to be empty.
   */
  function Reveal(g: Grid, row: int, col: int): (h: Grid)
    requires Rectangular(g)
    ensures SameShape(g, h) && Rectangular(h)
    ensures h == if 0 <= row && 0 <= col < Width(g) && row < |g| && g[row][col].FaceDown? && Uncovered(g, row, col)
                 then SetCell(g, row, col, FaceUp(g[row][col].hidden))
                 else g
  {
    if row < 0 || col < 0 || row >= |g| || col >= Width(g) then g
    else
      var cell := g[row][col];
      if cell.Placeholder? || cell.FaceUp? then g
      else if row != |g| - 1 && !g[row + 1][col].Placeholder? then g
      else if row != |g| - 1 && row % 2 == 1 && col != 0 && !g[row + 1][col - 1].Placeholder? then g
      else if row != |g| - 1 && row % 2 == 0 && col != Width(g) - 1 && !g[row + 1][col + 1].Placeholder? then g
      else
        var h := SetCell(g, row, col, FaceUp(cell.hidden));
        SameShapeKeepsRectangular(g, h);
        h
  }

  /** A reveal only ever turns a face-down card face up, and touches no other cell. */
  lemma RevealOnlyFlips(g: Grid, row: int, col: int)
    requires Rectangular(g)
    ensures forall i, j :: InGrid(g, i, j) && (i != row || j != col) ==> Reveal(g, row, col)[i][j] == g[i][j]
    ensures InGrid(g, row, col) && Reveal(g, row, col)[row][col] != g[row][col] ==>
      g[row][col].FaceDown? && Reveal(g, row, col)[row][col] == FaceUp(g[row][col].hidden)
  {
  }

  // ---------------------------------------------------------------------------
  // Removing

  predicate Holds(g: Grid, row: nat, col: nat, uid: CardUid)
    requires InGrid(g, row, col)
  {
    g[row][col].FaceUp? && g[row][col].card.uid == uid
  }

  /** The grid with the card at (row, col) taken away, before any reveal. */
  function Cleared(g: Grid, row: nat, col: nat): (h: Grid)
    requires Rectangular(g) && InGrid(g, row, col)
    ensures SameShape(g, h) && Rectangular(h) && Width(h) == Width(g)
    ensures h == SetCell(g, row, col, Placeholder)
  {
    var h := SetCell(g, row, col, Placeholder);
    SameShapeKeepsRectangular(g, h);
    h
  }

  /** Clearing the face-up card at (row, col) and trying to reveal the two cards it covered. */
  function RemoveAt(g: Grid, row: nat, col: nat): (h: Grid)
    requires Rectangular(g) && InGrid(g, row, col)
    ensures SameShape(g, h) && Rectangular(h)
    ensures h[row][col] == Placeholder
    ensures forall i, j :: InGrid(g, i, j) && (i != row || j != col) && !(i == row - 1 && (j == col || j == Diagonal(row, col))) ==>
              h[i][j] == g[i][j]
  {
    var h0 := Cleared(g, row, col);
    var h1 := Reveal(h0, row - 1, col);
    RevealOnlyFlips(h0, row - 1, col);
    var h2 := Reveal(h1, row - 1, Diagonal(row, col));
    RevealOnlyFlips(h1, row - 1, Diagonal(row, col));
    h2
  }

  /**
   * Removing a card reveals what it covered: each of the two cells above
   * it (same column and diagonal) turns face up exactly when it held a
   * face-down card that nothing covers once the card is gone.
   */
  lemma RemoveAtReveals(g: Grid, row: nat, col: nat, c: nat)
    requires Rectangular(g) && InGrid(g, row, col) && row >= 1
    requires c == col || c == Diagonal(row, col)
    requires c < Width(g)
    ensures RemoveAt(g, row, col)[row - 1][c]
         == if g[row - 1][c].FaceDown? && Uncovered(Cleared(g, row, col), row - 1, c)
            then FaceUp(g[row - 1][c].hidden)
            else g[row - 1][c]
  {
    var h0 := Cleared(g, row, col);
    var h1 := Reveal(h0, row - 1, col);
    RevealOnlyFlips(h0, row - 1, col);
    RevealOnlyFlips(h1, row - 1, Diagonal(row, col));
    if c != col {
      assert forall j :: 0 <= j < |h0[row]| ==> h1[row][j] == h0[row][j];
    }
  }

  /** Visiting one cell during `remove`: a face-up card with the uid is removed there. */
  function RemoveVisit(g: Grid, uid: CardUid, row: nat, col: nat): (h: Grid)
    requires Rectangular(g) && InGrid(g, row, col)
    ensures SameShape(g, h) && Rectangular(h)
  {
    if Holds(g, row, col, uid) then RemoveAt(g, row, col) else g
  }

  /** A visit changes the grid iff the cell holds the uid face up, and then leaves a placeholder there. */
  lemma RemoveVisitChangesIffHeld(g: Grid, uid: CardUid, row: nat, col: nat)
    requires Rectangular(g) && InGrid(g, row, col)
    ensures RemoveVisit(g, uid, row, col) != g <==> Holds(g, row, col, uid)
    ensures Holds(g, row, col, uid) ==> RemoveVisit(g, uid, row, col)[row][col] == Placeholder
  {
    if Holds(g, row, col, uid) {
      assert RemoveVisit(g, uid, row, col)[row][col] != g[row][col];
    }
  }

  /** The rest of the row-major scan of `remove`, from (row, col), on the grid as it then is. */
  function RemoveFrom(g: Grid, uid: CardUid, row: nat, col: nat): (h: Grid)
    requires Rectangular(g)
    ensures SameShape(g, h) && Rectangular(h)
    decreases |g| - row, Width(g) - col
  {
    if row >= |g| then g
    else if col >= |g[row]| then RemoveFrom(g, uid, row + 1, 0)
    else
      var h := RemoveVisit(g, uid, row, col);
      SameShapeKeepsRectangular(g, h);
      RemoveFrom(h, uid, row, col + 1)
  }

  /** No face-up card with the uid at or after (row, col) in row-major order. */
  ghost predicate NoneFrom(g: Grid, uid: CardUid, row: nat, col: nat) {
    forall i, j :: InGrid(g, i, j) && (i > row || (i == row && j >= col)) ==> !Holds(g, i, j, uid)
  }

  lemma {:induction false} RemoveFromWithoutMatch(g: Grid, uid: CardUid, row: nat, col: nat)
    requires Rectangular(g) && NoneFrom(g, uid, row, col)
    ensures RemoveFrom(g, uid, row, col) == g
    decreases |g| - row, Width(g) - col
  {
    if row >= |g| {
    } else if col >= |g[row]| {
      RemoveFromWithoutMatch(g, uid, row + 1, 0);
    } else {
      RemoveFromWithoutMatch(g, uid, row, col + 1);
    }
  }

  /** The scan skips every cell before the first match. */
  lemma {:induction false} RemoveFromSkips(g: Grid, uid: CardUid, row: nat, col: nat, r0: nat, c0: nat)
    requires Rectangular(g) && InGrid(g, r0, c0)
    requires row < r0 || (row == r0 && col <= c0)
    requires forall i, j :: InGrid(g, i, j) && (i > row || (i == row && j >= col)) && (i < r0 || (i == r0 && j < c0)) ==> !Holds(g, i, j, uid)
    ensures RemoveFrom(g, uid, row, col) == RemoveFrom(g, uid, r0, c0)
    decreases |g| - row, Width(g) - col
  {
    if row == r0 && col == c0 {
    } else if col >= |g[row]| {
      RemoveFromSkips(g, uid, row + 1, 0, r0, c0);
    } else {
      RemoveFromSkips(g, uid, row, col + 1, r0, c0);
    }
  }

  /**
   * When exactly one face-up card carries the uid, `remove` is that card's
   * removal with its two reveals; when none does, the grid is unchanged.
   */
  lemma RemoveSingleMatch(g: Grid, uid: CardUid, r0: nat, c0: nat)
    requires Rectangular(g) && InGrid(g, r0, c0) && Holds(g, r0, c0, uid)
    requires forall i, j :: InGrid(g, i, j) && Holds(g, i, j, uid) ==> i == r0 && j == c0
    ensures RemoveFrom(g, uid, 0, 0) == RemoveAt(g, r0, c0)
  {
    RemoveFromSkips(g, uid, 0, 0, r0, c0);
    var h := RemoveAt(g, r0, c0);
    SameShapeKeepsRectangular(g, h);
    forall i, j | InGrid(h, i, j) && (i > r0 || (i == r0 && j >= c0 + 1))
      ensures !Holds(h, i, j, uid)
    {
      assert InGrid(g, i, j);
      assert h[i][j] == g[i][j];
      assert !Holds(g, i, j, uid);
    }
    RemoveFromWithoutMatch(h, uid, r0, c0 + 1);
  }

  lemma RemoveWithoutMatch(g: Grid, uid: CardUid)
    requires Rectangular(g)
    requires forall i, j :: InGrid(g, i, j) ==> !Holds(g, i, j, uid)
    ensures RemoveFrom(g, uid, 0, 0) == g
  {
    RemoveFromWithoutMatch(g, uid, 0, 0);
  }

  // ---------------------------------------------------------------------------
  // The exposure test

  /**
   * The exposure test as written: the diagonal cell is read before the edge
   * test, so a card at the matching edge whose cell below is empty reads a
   * cell that does not exist, which throws.
   */
  function ClickableAt(g: Grid, row: nat, col: nat): (r: Result<bool>)
    requires Rectangular(g) && InGrid(g, row, col)
    ensures r.Err? <==> row != |g| - 1 && g[row + 1][col].Placeholder? && !(0 <= Diagonal(row, col) < Width(g))
    ensures r.Ok? ==> (r.value <==> Uncovered(g, row, col))
  {
    if row == |g| - 1 then Ok(true)
    else if row % 2 == 0 then
      if !g[row + 1][col].Placeholder? then Ok(false)
      else if col + 1 >= |g[row + 1]| then Err("Cannot read properties of undefined (reading 'type')")
      else Ok(g[row + 1][col + 1].Placeholder? || col == Width(g) - 1)
    else
      if !g[row + 1][col].Placeholder? then Ok(false)
      else if col == 0 then Err("Cannot read properties of undefined (reading 'type')")
      else Ok(g[row + 1][col - 1].Placeholder? || col == 0)
  }

  /** A card at the edge whose cell below has been cleared makes the test throw instead of answering. */
  lemma EdgeCardMakesClickableThrow(g: Grid, row: nat)
    requires Rectangular(g) && row + 1 < |g| && Width(g) > 0
    requires var col := if row % 2 == 0 then Width(g) - 1 else 0;
             g[row + 1][col].Placeholder?
    ensures ClickableAt(g, row, if row % 2 == 0 then Width(g) - 1 else 0).Err?
  {
  }

  /** The rest of the row-major scan of `clickable`: the last matching card's answer, or the first throw. */
  function ClickableFrom(g: Grid, uid: CardUid, row: nat, col: nat, acc: bool): Result<bool>
    requires Rectangular(g)
    decreases |g| - row, Width(g) - col
  {
    if row >= |g| then Ok(acc)
    else if col >= |g[row]| then ClickableFrom(g, uid, row + 1, 0, acc)
    else if !Holds(g, row, col, uid) then ClickableFrom(g, uid, row, col + 1, acc)
    else
      match ClickableAt(g, row, col)
      case Err(m) => Err(m)
      case Ok(b) => ClickableFrom(g, uid, row, col + 1, b)
  }

  lemma {:induction false} ClickableFromWithoutMatch(g: Grid, uid: CardUid, row: nat, col: nat, acc: bool)
    requires Rectangular(g) && NoneFrom(g, uid, row, col)
    ensures ClickableFrom(g, uid, row, col, acc) == Ok(acc)
    decreases |g| - row, Width(g) - col
  {
    if row >= |g| {
    } else if col >= |g[row]| {
      ClickableFromWithoutMatch(g, uid, row + 1, 0, acc);
    } else {
      ClickableFromWithoutMatch(g, uid, row, col + 1, acc);
    }
  }

  lemma {:induction false} ClickableFromSkips(g: Grid, uid: CardUid, row: nat, col: nat, acc: bool, r0: nat, c0: nat)
    requires Rectangular(g) && InGrid(g, r0, c0)
    requires row < r0 || (row == r0 && col <= c0)
    requires forall i, j :: InGrid(g, i, j) && (i > row || (i == row && j >= col)) && (i < r0 || (i == r0 && j < c0)) ==> !Holds(g, i, j, uid)
    ensures ClickableFrom(g, uid, row, col, acc) == ClickableFrom(g, uid, r0, c0, acc)
    decreases |g| - row, Width(g) - col
  {
    if row == r0 && col == c0 {
    } else if col >= |g[row]| {
      ClickableFromSkips(g, uid, row + 1, 0, acc, r0, c0);
    } else {
      ClickableFromSkips(g, uid, row, col + 1, acc, r0, c0);
    }
  }

  /** With exactly one matching face-up card the scan answers that card's exposure test. */
  lemma ClickableSingleMatch(g: Grid, uid: CardUid, r0: nat, c0: nat)
    requires Rectangular(g) && InGrid(g, r0, c0) && Holds(g, r0, c0, uid)
    requires forall i, j :: InGrid(g, i, j) && Holds(g, i, j, uid) ==> i == r0 && j == c0
    ensures ClickableFrom(g, uid, 0, 0, false) == ClickableAt(g, r0, c0)
    ensures r0 == |g| - 1 ==> ClickableFrom(g, uid, 0, 0, false) == Ok(true)
  {
    ClickableFromSkips(g, uid, 0, 0, false, r0, c0);
    match ClickableAt(g, r0, c0)
    case Err(_) =>
    case Ok(b) => ClickableFromWithoutMatch(g, uid, r0, c0 + 1, b);
  }

  lemma ClickableWithoutMatch(g: Grid, uid: CardUid)
    requires Rectangular(g)
    requires forall i, j :: InGrid(g, i, j) ==> !Holds(g, i, j, uid)
    ensures ClickableFrom(g, uid, 0, 0, false) == Ok(false)
  {
    ClickableFromWithoutMatch(g, uid, 0, 0, false);
  }

  // ---------------------------------------------------------------------------
  // Building a stage from templates

  /** The characters of a template that make cells: U face up, D face down, P placeholder. */
  predicate IsCellChar(ch: char) {
    ch == 'U' || ch == 'D' || ch == 'P'
  }

  function CellChars(template: string): (r: string)
    ensures |r| <= |template|
  {
    if template == [] then []
    else
      var rest := CellChars(template[..|template| - 1]);
      var ch := template[|template| - 1];
      if IsCellChar(ch) then rest + [ch] else rest
  }

  /** How many cards a template draws: its U and D characters. */
  function Draws(template: string): (n: nat)
    ensures n <= |CellChars(template)|
  {
    if template == [] then 0
    else
      var ch := template[|template| - 1];
      Draws(template[..|template| - 1]) + (if ch == 'U' || ch == 'D' then 1 else 0)
  }

  function TotalDraws(templates: seq<string>): nat {
    if templates == [] then 0 else TotalDraws(templates[..|templates| - 1]) + Draws(templates[|templates| - 1])
  }

  /** Every template yields rows of the same width. */
  predicate TemplatesRectangular(templates: seq<string>) {
    forall i :: 0 <= i < |templates| ==> |CellChars(templates[i])| == |CellChars(templates[0])|
  }

  function KindOf(c: Cell): char {
    match c
    case FaceUp(_) => 'U'
    case FaceDown(_) => 'D'
    case Placeholder => 'P'
  }

  function Kinds(row: seq<Cell>): (r: string)
    ensures |r| == |row|
  {
    if row == [] then [] else Kinds(row[..|row| - 1]) + [KindOf(row[|row| - 1])]
  }

  /** The cards of a row, left to right. */
  function RowCards(row: seq<Cell>): seq<Card> {
    if row == [] then []
    else
      var rest := RowCards(row[..|row| - 1]);
      match row[|row| - 1]
      case FaceUp(c) => rest + [c]
      case FaceDown(c) => rest + [c]
      case Placeholder => rest
  }

  /** The cards on the stage, in row-major order. */
  function StageCards(g: Grid): seq<Card> {
    if g == [] then [] else StageCards(g[..|g| - 1]) + RowCards(g[|g| - 1])
  }

  // ---------------------------------------------------------------------------
  // The hiding projection

  /** What the players see of a cell: a face-down card shows only its back. */
  datatype ViewCell = SeenFaceUp(card: Card) | SeenFaceDown(back: FlippedCardType) | SeenPlaceholder

  function View(c: Cell): ViewCell {
    match c
    case FaceUp(card) => SeenFaceUp(card)
    case FaceDown(hidden) => SeenFaceDown(hidden.reverse)
    case Placeholder => SeenPlaceholder
  }

  function Sanitized(g: Grid): (v: seq<seq<ViewCell>>)
    ensures |v| == |g|
    ensures forall i :: 0 <= i < |g| ==> |v[i]| == |g[i]|
    ensures forall i, j :: InGrid(g, i, j) ==> v[i][j] == View(g[i][j])
  {
    seq(|g|, i requires 0 <= i < |g| => seq(|g[i]|, j requires 0 <= j < |g[i]| => View(g[i][j])))
  }

  /** Cells that agree except for which card lies under a face-down back of the same kind. */
  predicate SameToOutsider(x: Cell, y: Cell) {
    match x
    case FaceDown(c) => y.FaceDown? && y.hidden.reverse == c.reverse
    case _ => x == y
  }

  /** The projection hides face-down cards: grids that differ only there look the same. */
  lemma SanitizedHidesFaceDownCards(g: Grid, h: Grid)
    requires SameShape(g, h)
    requires forall i, j :: InGrid(g, i, j) ==> SameToOutsider(g[i][j], h[i][j])
    ensures Sanitized(g) == Sanitized(h)
  {
    var vg, vh := Sanitized(g), Sanitized(h);
    forall i | 0 <= i < |g|
      ensures vg[i] == vh[i]
    {
      forall j | 0 <= j < |g[i]|
        ensures vg[i][j] == vh[i][j]
      {
        assert InGrid(g, i, j);
      }
    }
  }

  /** Conversely, the view shows every face-up and empty cell exactly. */
  lemma SanitizedShowsOpenCells(g: Grid, h: Grid)
    requires SameShape(g, h) && Sanitized(g) == Sanitized(h)
    ensures forall i, j :: InGrid(g, i, j) && !g[i][j].FaceDown? ==> g[i][j] == h[i][j]
  {
    forall i, j | InGrid(g, i, j) && !g[i][j].FaceDown?
      ensures g[i][j] == h[i][j]
    {
      assert Sanitized(g)[i][j] == Sanitized(h)[i][j];
    }
  }

  // ---------------------------------------------------------------------------
  // The controller

  class CardStageController {
    var stage: Grid
    /** The pile cards are drawn from; the game shares it with the deck controller. */
    const cards: CardDeckController
    /** The stage template of each age (fixtures). */
    const templates: Age -> seq<string>

    ghost predicate Valid()
      reads this
    {
      Rectangular(stage)
    }

    constructor(cards: CardDeckController, templates: Age -> seq<string>)
      ensures Valid() && stage == []
      ensures this.cards == cards && this.templates == templates
    {
      stage := [];
      this.cards := cards;
      this.templates := templates;
    }

    function View(): (v: seq<seq<ViewCell>>)
      reads this
      ensures |v| == |stage|
    {
      Sanitized(stage)
    }

    /** The face-up card with the uid, if the stage shows one (the first, row-major). */
    function GetCard(uid: CardUid): (r: Option<Card>)
      reads this
      ensures r.None? <==> forall i, j :: InGrid(stage, i, j) ==> !Holds(stage, i, j, uid)
      ensures r.Some? ==> r.value.uid == uid && exists i, j :: InGrid(stage, i, j) && stage[i][j] == FaceUp(r.value)
    {
      FindFaceUp(stage, uid, 0)
    }

    /** Whether the face-up card with the card's uid has nothing on it (the edge test done first). */
    function IsClickable(card: Card): (b: bool)
      requires Valid()
      reads this
      ensures b <==> exists i, j :: InGrid(stage, i, j) && Holds(stage, i, j, card.uid) && Uncovered(stage, i, j)
    {
      exists i, j | 0 <= i < |stage| && 0 <= j < |stage[i]| :: Holds(stage, i, j, card.uid) && Uncovered(stage, i, j)
    }

    /** Whether no card, face up or face down, is left. */
    function IsEmpty(): (b: bool)
      reads this
      ensures b <==> forall i, j :: InGrid(stage, i, j) ==> stage[i][j].Placeholder?
    {
      forall i, j | 0 <= i < |stage| && 0 <= j < |stage[i]| :: stage[i][j].Placeholder?
    }

    /**
     * Builds one row per template and one cell per U, D or P character,
     * drawing a card for each U and D. A draw from an empty pile fails the
     * whole call.
     */
    method Set(age: Age) returns (o: Outcome)
      requires TemplatesRectangular(templates(age))
      modifies this, cards
      ensures Valid()
      ensures o.Done? <==> TotalDraws(templates(age)) <= |old(cards.cards)|
      ensures o.Failed? ==> cards.cards == []
      ensures o.Done? ==>
        && |stage| == |templates(age)|
        && RowsFollow(stage, templates(age))
        && |cards.cards| == |old(cards.cards)| - TotalDraws(templates(age))
        && multiset(StageCards(stage)) + multiset(cards.cards) == multiset(old(cards.cards))
    {
      var pattern := templates(age);
      stage := [];
      var a := 0;
      while a < |pattern|
        invariant 0 <= a <= |pattern|
        invariant |stage| == a && Rectangular(stage)
        invariant RowsFollow(stage, pattern)
        invariant |cards.cards| + TotalDraws(pattern[..a]) == |old(cards.cards)|
        invariant multiset(StageCards(stage)) + multiset(cards.cards) == multiset(old(cards.cards))
      {
        var r, row := BuildRow(pattern[a]);
        StageStep(pattern, a, stage, row);
        if r.Failed? {
          o := r;
          TotalDrawsPrefix(pattern, a + 1);
          return;
        }
        assert |row| == |CellChars(pattern[a])| == |CellChars(pattern[0])|;
        RowsFollowStep(stage, pattern, row);
        stage := stage + [row];
        a := a + 1;
      }
      assert pattern[..a] == pattern;
      o := Done;
    }

    /** One row of `Set`: a cell per cell character of the template. */
    method BuildRow(template: string) returns (o: Outcome, row: seq<Cell>)
      modifies cards
      ensures o.Done? <==> Draws(template) <= |old(cards.cards)|
      ensures o.Failed? ==> cards.cards == []
      ensures o.Done? ==>
        && Kinds(row) == CellChars(template)
        && |cards.cards| + Draws(template) == |old(cards.cards)|
        && multiset(RowCards(row)) + multiset(cards.cards) == multiset(old(cards.cards))
    {
      row := [];
      var b := 0;
      while b < |template|
        invariant 0 <= b <= |template|
        invariant Kinds(row) == CellChars(template[..b])
        invariant |cards.cards| + Draws(template[..b]) == |old(cards.cards)|
        invariant multiset(RowCards(row)) + multiset(cards.cards) == multiset(old(cards.cards))
      {
        var ch := template[b];
        TemplateStep(template, b);
        if ch == 'U' || ch == 'D' {
          var r := DrawCell(ch);
          if r.Err? {
            o := Failed(r.message);
            DrawsPrefix(template, b + 1);
            return;
          }
          RowStep(row, r.value);
          row := row + [r.value];
        } else if ch == 'P' {
          RowStep(row, Placeholder);
          row := row + [Placeholder];
        } else {
          assert !IsCellChar(ch);
        }
        b := b + 1;
      }
      assert template[..b] == template;
      o := Done;
    }

    /** A drawn card dealt face up for 'U' and face down for 'D'. */
    method DrawCell(ch: char) returns (r: Result<Cell>)
      requires ch == 'U' || ch == 'D'
      modifies cards
      ensures r.Err? <==> old(cards.cards) == []
      ensures r.Err? ==> cards.cards == []
      ensures r.Ok? ==>
        && KindOf(r.value) == ch
        && |cards.cards| + 1 == |old(cards.cards)|
        && multiset(RowCards([r.value])) + multiset(cards.cards) == multiset(old(cards.cards))
    {
      var d := cards.Draw();
      if d.Err? {
        return Err(d.message);
      }
      r := Ok(if ch == 'U' then FaceUp(d.value) else FaceDown(d.value));
      assert [r.value][..0] == [];
    }

    /** Replaces the stage with the reveal of (row, col). */
    method RevealIfAble(row: int, col: int)
      requires Valid()
      modifies this
      ensures Valid()
      ensures stage == Reveal(old(stage), row, col)
    {
      if row < 0 || col < 0 || row >= |stage| || col >= |stage[0]| {
        return;
      }
      var card := stage[row][col];
      if card.Placeholder? || card.FaceUp? {
        return;
      }
      if row != |stage| - 1 {
        if !stage[row + 1][col].Placeholder? {
          return;
        }
        if row % 2 == 1 && col != 0 {
          if !stage[row + 1][col - 1].Placeholder? {
            return;
          }
        } else if row % 2 == 0 && col != |stage[0]| - 1 {
          if !stage[row + 1][col + 1].Placeholder? {
            return;
          }
        }
      }
      stage := SetCell(stage, row, col, FaceUp(card.hidden));
    }

    /** Clears every face-up cell holding the card's uid, revealing what each one covered. */
    /** One cell of the removal scan: a face-up `card` there is taken away and the cards above it revealed. */
    method VisitCell(card: Card, row: nat, column: nat)
      requires Valid() && InGrid(stage, row, column)
      modifies this
      ensures Valid()
      ensures stage == RemoveVisit(old(stage), card.uid, row, column)
    {
      if stage[row][column].FaceUp? && stage[row][column].card.uid == card.uid {
        stage := SetCell(stage, row, column, Placeholder);
        RevealIfAble(row - 1, column);
        if row % 2 == 0 {
          RevealIfAble(row - 1, column + 1);
        } else {
          RevealIfAble(row - 1, column - 1);
        }
      }
    }

    method Remove(card: Card)
      requires Valid()
      modifies this
      ensures Valid()
      ensures stage == RemoveFrom(old(stage), card.uid, 0, 0)
    {
      var row := 0;
      while row < |stage|
        invariant 0 <= row <= |stage|
        invariant Rectangular(stage) && SameShape(old(stage), stage)
        invariant RemoveFrom(stage, card.uid, row, 0) == RemoveFrom(old(stage), card.uid, 0, 0)
      {
        var column := 0;
        while column < |stage[row]|
          invariant row < |stage| && 0 <= column <= |stage[row]|
          invariant Rectangular(stage) && SameShape(old(stage), stage)
          invariant RemoveFrom(stage, card.uid, row, column) == RemoveFrom(old(stage), card.uid, 0, 0)
        {
          VisitCell(card, row, column);
          column := column + 1;
        }
        row := row + 1;
      }
    }

    /** The exposure test as written, over every cell; a throw ends the scan. */
    method Clickable(card: Card) returns (r: Result<bool>)
      requires Valid()
      ensures r == ClickableFrom(stage, card.uid, 0, 0, false)
    {
      var clickable := false;
      var row := 0;
      while row < |stage|
        invariant 0 <= row <= |stage|
        invariant ClickableFrom(stage, card.uid, row, 0, clickable) == ClickableFrom(stage, card.uid, 0, 0, false)
      {
        var column := 0;
        while column < |stage[row]|
          invariant 0 <= column <= |stage[row]|
          invariant ClickableFrom(stage, card.uid, row, column, clickable) == ClickableFrom(stage, card.uid, 0, 0, false)
        {
          if stage[row][column].FaceUp? && stage[row][column].card.uid == card.uid {
            var answer := ClickableAt(stage, row, column);
            if answer.Err? {
              return answer;
            }
            clickable := answer.value;
          }
          column := column + 1;
        }
        row := row + 1;
      }
      r := Ok(clickable);
    }
  }

  /** The first face-up card with the uid in rows `from` onwards. */
  function FindFaceUp(g: Grid, uid: CardUid, from: nat): (r: Option<Card>)
    ensures r.None? <==> forall i, j :: InGrid(g, i, j) && i >= from ==> !Holds(g, i, j, uid)
    ensures r.Some? ==> r.value.uid == uid && exists i, j :: InGrid(g, i, j) && g[i][j] == FaceUp(r.value)
    decreases |g| - from
  {
    if from >= |g| then None
    else
      match FindInRow(g[from], uid)
      case Some(j) =>
        assert InGrid(g, from, j);
        Some(g[from][j].card)
      case None => FindFaceUp(g, uid, from + 1)
  }

  function FindInRow(row: seq<Cell>, uid: CardUid): (r: Option<nat>)
    ensures r.None? <==> forall j :: 0 <= j < |row| ==> !(row[j].FaceUp? && row[j].card.uid == uid)
    ensures r.Some? ==> r.value < |row| && row[r.value].FaceUp? && row[r.value].card.uid == uid
  {
    if row == [] then None
    else if row[0].FaceUp? && row[0].card.uid == uid then Some(0)
    else
      match FindInRow(row[1..], uid)
      case Some(j) => Some(j + 1)
      case None => None
  }

  lemma TemplateStep(template: string, b: nat)
    requires b < |template|
    ensures CellChars(template[..b + 1]) == CellChars(template[..b]) + (if IsCellChar(template[b]) then [template[b]] else [])
    ensures Draws(template[..b + 1]) == Draws(template[..b]) + (if template[b] == 'U' || template[b] == 'D' then 1 else 0)
  {
    assert template[..b + 1][..b] == template[..b];
  }

  lemma RowStep(row: seq<Cell>, cell: Cell)
    ensures Kinds(row + [cell]) == Kinds(row) + [KindOf(cell)]
    ensures RowCards(row + [cell]) == RowCards(row) + RowCards([cell])
  {
    assert (row + [cell])[..|row|] == row;
    assert [cell][..0] == [];
  }

  /** Each row of the grid has the cell kinds its template spells out. */
  predicate RowsFollow(g: Grid, templates: seq<string>) {
    |g| <= |templates| && forall i :: 0 <= i < |g| ==> Kinds(g[i]) == CellChars(templates[i])
  }

  lemma RowsFollowStep(g: Grid, templates: seq<string>, row: seq<Cell>)
    requires RowsFollow(g, templates) && |g| < |templates|
    requires Kinds(row) == CellChars(templates[|g|])
    ensures RowsFollow(g + [row], templates)
  {
    forall i | 0 <= i < |g| + 1
      ensures Kinds((g + [row])[i]) == CellChars(templates[i])
    {
      if i < |g| {
        assert (g + [row])[i] == g[i];
      }
    }
  }

  lemma StageStep(pattern: seq<string>, a: nat, stage: Grid, row: seq<Cell>)
    requires a < |pattern|
    ensures TotalDraws(pattern[..a + 1]) == TotalDraws(pattern[..a]) + Draws(pattern[a])
    ensures StageCards(stage + [row]) == StageCards(stage) + RowCards(row)
    ensures forall i :: 0 <= i < |stage| ==> (stage + [row])[i] == stage[i]
  {
    assert pattern[..a + 1][..a] == pattern[..a];
    assert (stage + [row])[..|stage|] == stage;
  }

  lemma {:induction false} TotalDrawsPrefix(pattern: seq<string>, n: nat)
    requires n <= |pattern|
    ensures TotalDraws(pattern[..n]) <= TotalDraws(pattern)
    decreases |pattern|
  {
    if n < |pattern| {
      var shorter := pattern[..|pattern| - 1];
      assert shorter[..n] == pattern[..n];
      TotalDrawsPrefix(shorter, n);
    } else {
      assert pattern[..n] == pattern;
    }
  }

  lemma {:induction false} DrawsPrefix(template: string, n: nat)
    requires n <= |template|
    ensures Draws(template[..n]) <= Draws(template)
    decreases |template|
  {
    if n < |template| {
      var shorter := template[..|template| - 1];
      assert shorter[..n] == template[..n];
      DrawsPrefix(shorter, n);
    } else {
      assert template[..n] == template;
    }
  }
}
