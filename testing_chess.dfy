/** testing-chess/testing_chess.py: the earlier version of the chess helpers. Here the
    piece dictionary is one module-level object that getRandomBoard overwrites in
    place and hands back, and setPositions is a function of the dictionary and a
    board. */
module TestingChess {
  import opened Results
  import opened ChessBoard

  /** The module-level positions dictionary, which starts as the 32 opening squares. */
  class PositionsDict {
    var entries: seq<Placement>

    ghost predicate Valid()
      reads this
    {
      DistinctPieces(entries)
    }

    constructor ()
      ensures entries == PositionsStart && Valid()
    {
      StartPiecesDistinct();
      entries := PositionsStart;
    }
  }

  /** A Board: only the frame computed from two corners. */
  class Board {
    const unitVectorUp: Vec
    const unitVectorRight: Vec
    const bottomLeft: Vec
    const bottomLeftCentered: Vec

    /** Board(bottom_left, top_left). */
    constructor (bottomLeft: Vec, topLeft: Vec)
      ensures unitVectorUp == UnitVectorUp(bottomLeft, topLeft)
      ensures unitVectorRight == UnitVectorRight(unitVectorUp)
      ensures this.bottomLeft == bottomLeft
      ensures bottomLeftCentered == BottomLeftCentered(bottomLeft, unitVectorRight, unitVectorUp)
    {
      var up := UnitVectorUp(bottomLeft, topLeft);
      var right := UnitVectorRight(up);
      unitVectorUp := up;
      unitVectorRight := right;
      this.bottomLeft := bottomLeft;
      bottomLeftCentered := BottomLeftCentered(bottomLeft, right, up);
    }
  }

  /** setPositions(positions, board): move every piece of the dictionary to the point
      of its square, in the dictionary's order, stopping at the first error. */
  method SetPositions(positions: PositionsDict, board: Board, scene: PieceScene) returns (outcome: Outcome)
    modifies scene
    ensures (outcome, scene.location) ==
            MoveAll(board.bottomLeftCentered, board.unitVectorRight, board.unitVectorUp,
                    old(scene.location), positions.entries)
  {
    outcome := MovePieces(scene, board.bottomLeftCentered, board.unitVectorRight, board.unitVectorUp,
                          positions.entries);
  }

  /** getRandomBoard(): overwrite, in key order, the values of the module-level
      dictionary with random.sample(pos_list, 32) and return that same dictionary.
      Its keys and their order stay as they were. A dictionary with more than 32
      entries makes the loop raise IndexError after the first 32 are overwritten. */
  method GetRandomBoard(positions: PositionsDict) returns (r: PositionsDict, outcome: Outcome)
    requires positions.Valid()
    modifies positions
    ensures r == positions && positions.Valid()
    ensures Pieces(positions.entries) == old(Pieces(positions.entries))
    ensures outcome.Pass? <==> |positions.entries| <= 32
    ensures outcome.Fail? ==> outcome.error == IndexError
    ensures forall k :: 0 <= k < |positions.entries| ==>
              if k < 32 then positions.entries[k].square in AllSquares()
              else positions.entries[k].square == old(positions.entries[k].square)
    ensures forall p, q :: 0 <= p < q < |positions.entries| && q < 32 ==>
              positions.entries[p].square != positions.entries[q].square
  {
    var posList := CandidateSquares();
    SampleExists();
    var randomPositions :| IsSample(randomPositions, posList, 32);
    assert IsSample(randomPositions, posList, 32);
    var entries;
    entries, outcome := AssignSample(positions.entries, randomPositions);
    assert |entries| == |Pieces(entries)| == |Pieces(positions.entries)| == |positions.entries|;
    forall k | 0 <= k < |entries| && k < 32
      ensures entries[k].square == randomPositions[k] && entries[k].square in AllSquares()
    {
      assert randomPositions[k] in posList;
    }
    positions.entries := entries;
    assert DistinctPieces(entries) by {
      assert forall k :: 0 <= k < |entries| ==> entries[k].piece == Pieces(entries)[k];
    }
    return positions, outcome;
  }
}
