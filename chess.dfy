/** testing-chess/chess.py: a chess board placed in a Blender scene by two corners,
    onto which the 32 pieces are set at their opening squares or at random squares. */
module Chess {
  import opened Results
  import opened ChessBoard

  /** The boards getRandomBoard can return: the pieces of positions_start in their
      order, on pairwise different squares taken from the candidate list. */
  predicate IsRandomBoard(positions: seq<Placement>) {
    Pieces(positions) == Pieces(PositionsStart) &&
    (forall k :: 0 <= k < |positions| ==> positions[k].square in AllSquares()) &&
    (forall p, q :: 0 <= p < q < |positions| ==> positions[p].square != positions[q].square)
  }

  /** getRandomBoard(): a copy of positions_start whose values are replaced, in key
      order, by random.sample(pos_list, 32). The sample is a nondeterministic choice
      among all samples; positions_start itself is a constant and stays as it is. */
  method GetRandomBoard() returns (positions: seq<Placement>)
    ensures IsRandomBoard(positions)
  {
    var posList := CandidateSquares();
    SampleExists();
    var randomPositions :| IsSample(randomPositions, posList, 32);
    StartPiecesDistinct();
    positions := PositionsStart;
    var outcome;
    positions, outcome := AssignSample(positions, randomPositions);
    SampleAssigned(positions, randomPositions, posList);
  }

  /** Values taken in order from a sample of the candidate list make a random board. */
  lemma SampleAssigned(positions: seq<Placement>, sample: seq<string>, posList: seq<string>)
    requires Pieces(positions) == Pieces(PositionsStart) && posList == AllSquares()
    requires IsSample(sample, posList, |positions|)
    requires forall k :: 0 <= k < |positions| ==> positions[k].square == sample[k]
    ensures IsRandomBoard(positions)
  {
  }

  /** A Board: the frame computed from two corners of the board, and its own copy of
      positions_start, which no method ever changes. */
  class Board {
    const unitVectorUp: Vec
    const unitVectorRight: Vec
    const bottomLeft: Vec
    const bottomLeftCentered: Vec
    const positions: seq<Placement>

    /** Board(bottom_left, top_left). */
    constructor (bottomLeft: Vec, topLeft: Vec)
      ensures unitVectorUp == UnitVectorUp(bottomLeft, topLeft)
      ensures unitVectorRight == UnitVectorRight(unitVectorUp)
      ensures this.bottomLeft == bottomLeft
      ensures bottomLeftCentered == BottomLeftCentered(bottomLeft, unitVectorRight, unitVectorUp)
      ensures positions == PositionsStart
    {
      var up := UnitVectorUp(bottomLeft, topLeft);
      var right := UnitVectorRight(up);
      unitVectorUp := up;
      unitVectorRight := right;
      this.bottomLeft := bottomLeft;
      bottomLeftCentered := BottomLeftCentered(bottomLeft, right, up);
      positions := PositionsStart;
    }

    /** setPositions(new_positions): move each named piece to its square, in the
        dictionary's order, stopping at the first error. */
    method SetPositions(scene: PieceScene, newPositions: seq<Placement>) returns (outcome: Outcome)
      modifies scene
      ensures (outcome, scene.location) ==
              MoveAll(bottomLeftCentered, unitVectorRight, unitVectorUp, old(scene.location), newPositions)
    {
      outcome := MovePieces(scene, bottomLeftCentered, unitVectorRight, unitVectorUp, newPositions);
    }

    /** randomise(): set the pieces on a random board. */
    method Randomise(scene: PieceScene) returns (outcome: Outcome)
      modifies scene
      ensures exists board :: IsRandomBoard(board) &&
                (outcome, scene.location) ==
                MoveAll(bottomLeftCentered, unitVectorRight, unitVectorUp, old(scene.location), board)
    {
      var randomPositions := GetRandomBoard();
      outcome := SetPositions(scene, randomPositions);
    }

    /** reset(): set the pieces on their opening squares. */
    method Reset(scene: PieceScene) returns (outcome: Outcome)
      modifies scene
      ensures (outcome, scene.location) ==
              MoveAll(bottomLeftCentered, unitVectorRight, unitVectorUp, old(scene.location), PositionsStart)
    {
      var start := PositionsStart;
      outcome := SetPositions(scene, start);
    }
  }

  /** On a scene holding all 32 pieces, reset() succeeds: every piece stands on the
      point of its opening square, and every other object stays where it was. */
  lemma ResetMovesEveryPiece(bottomLeftCentered: Vec, right: Vec, up: Vec, location: map<string, Vec>)
    requires forall k :: 0 <= k < |PositionsStart| ==> PositionsStart[k].piece in location
    ensures var (outcome, moved) := MoveAll(bottomLeftCentered, right, up, location, PositionsStart);
            outcome == Pass && moved.Keys == location.Keys &&
            (forall k :: 0 <= k < |PositionsStart| ==>
               moved[PositionsStart[k].piece] ==
                 TranslateCoordinate(bottomLeftCentered, right, up, PositionsStart[k].square).value) &&
            (forall name :: name in location && name !in Pieces(PositionsStart) ==> moved[name] == location[name])
  {
    StartPiecesDistinct();
    StartSquaresWellFormed();
    MoveAllMovesExactlyNamed(bottomLeftCentered, right, up, location, PositionsStart);
  }

  /** On a scene holding all 32 pieces, setting a random board on a level board with a
      non-zero edge puts no two pieces at the same point. */
  lemma RandomBoardPiecesApart(bottomLeft: Vec, topLeft: Vec, location: map<string, Vec>,
                               board: seq<Placement>, p: nat, q: nat)
    requires IsRandomBoard(board)
    requires forall k :: 0 <= k < |board| ==> board[k].piece in location
    requires bottomLeft.z == topLeft.z && (bottomLeft.x != topLeft.x || bottomLeft.y != topLeft.y)
    requires p < q < |board|
    ensures var up := UnitVectorUp(bottomLeft, topLeft);
            var right := UnitVectorRight(up);
            var (outcome, moved) := MoveAll(BottomLeftCentered(bottomLeft, right, up), right, up, location, board);
            outcome == Pass && board[p].piece in moved && board[q].piece in moved &&
            moved[board[p].piece] != moved[board[q].piece]
  {
    var up := UnitVectorUp(bottomLeft, topLeft);
    var right := UnitVectorRight(up);
    var centred := BottomLeftCentered(bottomLeft, right, up);
    StartPiecesDistinct();
    assert DistinctPieces(board) by {
      assert forall k :: 0 <= k < |board| ==> board[k].piece == PositionsStart[k].piece;
    }
    forall k | 0 <= k < |board|
      ensures TranslateCoordinate(centred, right, up, board[k].square).Ok?
    {
      CandidatesAreSquareNames(board[k].square);
    }
    MoveAllMovesExactlyNamed(centred, right, up, location, board);
    CandidatesAreSquareNames(board[p].square);
    CandidatesAreSquareNames(board[q].square);
    LevelBoardSquaresDistinct(bottomLeft, topLeft, board[p].square, board[q].square);
  }
}
