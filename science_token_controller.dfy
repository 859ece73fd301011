/**
 * The science progress tokens: ten kinds in a supply, five of them drawn
 * without replacement onto the shared board.
 */
module ScienceTokens {
  import opened Models

  /** What reading a board slot gives: a slot's content, JavaScript's `undefined`, or a range error. */
  datatype TokenLookup = Slot(token: Option<ScienceProgressToken>) | Undefined | RangeError

  /** The tokens lying on the board, in board order. */
  function BoardTokens(board: seq<Option<ScienceProgressToken>>): (ts: seq<ScienceProgressToken>)
    ensures |ts| <= |board|
    ensures (forall i :: 0 <= i < |board| ==> board[i].Some?) ==>
      |ts| == |board| && forall i :: 0 <= i < |board| ==> ts[i] == board[i].value
  {
    if board == [] then []
    else
      var rest := BoardTokens(board[..|board| - 1]);
      match board[|board| - 1]
      case Some(t) => rest + [t]
      case None => rest
  }

  predicate AllOccupied(board: seq<Option<ScienceProgressToken>>) {
    forall i :: 0 <= i < |board| ==> board[i].Some?
  }

  /** Board slots holding the given tokens, in order. */
  function Occupied(ts: seq<ScienceProgressToken>): (board: seq<Option<ScienceProgressToken>>)
    ensures |board| == |ts|
    ensures forall i :: 0 <= i < |ts| ==> board[i] == Some(ts[i])
    ensures BoardTokens(board) == ts
    ensures AllOccupied(board)
  {
    if ts == [] then []
    else
      var prefix := ts[..|ts| - 1];
      var rest := Occupied(prefix);
      var board := rest + [Some(ts[|ts| - 1])];
      assert board[..|board| - 1] == rest;
      assert BoardTokens(board) == BoardTokens(rest) + [ts[|ts| - 1]];
      assert ts == prefix + [ts[|ts| - 1]];
      board
  }

  class ScienceTokenController {
    var allTokens: seq<ScienceProgressToken>
    var onBoard: seq<Option<ScienceProgressToken>>

    constructor()
      ensures allTokens == [] && onBoard == []
    {
      allTokens := [];
      onBoard := [];
    }

    function SupplyCount(): nat
      reads this
    {
      |allTokens|
    }

    function Board(): seq<Option<ScienceProgressToken>>
      reads this
    {
      onBoard
    }

    /** Removes and returns the supply token at a random index. */
    method NextToken() returns (r: Result<ScienceProgressToken>)
      modifies this
      ensures onBoard == old(onBoard)
      ensures old(allTokens) == [] ==> r.Err? && allTokens == old(allTokens)
      ensures old(allTokens) != [] ==>
        && r.Ok?
        && exists i :: 0 <= i < |old(allTokens)| && r.value == old(allTokens)[i] && allTokens == Splice(old(allTokens), i)
      ensures r.Ok? ==> multiset(allTokens) + multiset{r.value} == multiset(old(allTokens))
      ensures r.Ok? ==> |allTokens| == |old(allTokens)| - 1
    {
      if |allTokens| == 0 {
        return Err("No more tokens in the supply.");
      }
      var index :| 0 <= index < |allTokens|;
      r := Ok(allTokens[index]);
      allTokens := Splice(allTokens, index);
    }

    method Reset()
      modifies this
      ensures |onBoard| == 5 && |allTokens| == 5
      ensures AllOccupied(onBoard)
      ensures multiset(BoardTokens(onBoard) + allTokens) == multiset(AllTokens)
      ensures NoDuplicates(BoardTokens(onBoard) + allTokens)
    {
      allTokens := AllTokens;
      var board := DrawBoard();
      onBoard := Occupied(board);
      ResetLeavesNoDuplicates(board, allTokens);
    }

    /** Five successive draws from a supply of ten. */
    method DrawBoard() returns (board: seq<ScienceProgressToken>)
      requires |allTokens| == 10
      modifies this
      ensures |board| == 5 && |allTokens| == 5 && onBoard == old(onBoard)
      ensures multiset(board + allTokens) == multiset(old(allTokens))
    {
      board := [];
      while |board| < 5
        invariant |board| <= 5
        invariant |allTokens| == 10 - |board|
        invariant onBoard == old(onBoard)
        invariant multiset(board) + multiset(allTokens) == multiset(old(allTokens))
      {
        var t := NextToken();
        board := board + [t.value];
      }
    }

    /** The board slot at `index`, as written: the bound check accepts `index == |onBoard|`. */
    function GetToken(index: int): (r: TokenLookup)
      reads this
      ensures r.RangeError? <==> index < 0 || index > |onBoard|
      ensures r.Slot? ==> 0 <= index < |onBoard| && r.token == onBoard[index]
    {
      if index < 0 || index > |onBoard| then RangeError
      else if index == |onBoard| then Undefined
      else Slot(onBoard[index])
    }

    /** The board slot at `index` with the bound check `index >= |onBoard|` the error message implies. */
    function GetTokenChecked(index: int): (r: TokenLookup)
      reads this
      ensures r.RangeError? <==> index < 0 || index >= |onBoard|
      ensures !r.RangeError? ==> r == Slot(onBoard[index])
    {
      if index < 0 || index >= |onBoard| then RangeError
      else Slot(onBoard[index])
    }
  }

  lemma ResetLeavesNoDuplicates(board: seq<ScienceProgressToken>, supply: seq<ScienceProgressToken>)
    requires multiset(board + supply) == multiset(AllTokens)
    ensures NoDuplicates(board + supply)
  {
    AllTokensDistinct();
    NoDuplicatesFromMultiset(board + supply, AllTokens);
  }

  /** One past the last slot is let through and yields `undefined`; the corrected check rejects it. */
  lemma GetTokenAcceptsOnePastEnd(t: ScienceTokenController)
    ensures t.GetToken(|t.onBoard|) == Undefined
    ensures t.GetTokenChecked(|t.onBoard|) == RangeError
    ensures forall i :: i != |t.onBoard| ==> t.GetToken(i) == t.GetTokenChecked(i)
  {
  }
}
