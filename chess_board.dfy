/** What testing-chess/chess.py and testing-chess/testing_chess.py have in common: the
    board's basis vectors, the translation of a square name such as "b5" to a point,
    the 64 square names, piece-to-square dictionaries, and moving the pieces of the
    Blender scene. Vectors are exact real triples (float rounding is not modelled). */
module ChessBoard {
  import opened Results
  import opened Text

  // ---------------------------------------------------------------------------
  // Vectors
  // ---------------------------------------------------------------------------

  datatype Vec = Vec(x: real, y: real, z: real)

  function Add(a: Vec, b: Vec): Vec { Vec(a.x + b.x, a.y + b.y, a.z + b.z) }

  function Sub(a: Vec, b: Vec): Vec { Vec(a.x - b.x, a.y - b.y, a.z - b.z) }

  function Scale(k: real, a: Vec): Vec { Vec(k * a.x, k * a.y, k * a.z) }

  function Dot(a: Vec, b: Vec): real { a.x * b.x + a.y * b.y + a.z * b.z }

  // ---------------------------------------------------------------------------
  // The board's frame (Board.__init__)
  // ---------------------------------------------------------------------------

  /** unit_vector_up: one eighth of the left edge, from bottom_left to top_left. */
  function UnitVectorUp(bottomLeft: Vec, topLeft: Vec): (up: Vec)
    ensures Add(bottomLeft, Scale(8.0, up)) == topLeft
  {
    Scale(1.0 / 8.0, Sub(topLeft, bottomLeft))
  }

  /** unit_vector_right: up turned a quarter clockwise in the xy plane, z copied. It
      has the length of up, and is perpendicular to it exactly when up is level. */
  function UnitVectorRight(up: Vec): (right: Vec)
    ensures Dot(right, right) == Dot(up, up)
    ensures Dot(right, up) == up.z * up.z
    ensures right.x == up.y && right.y == -up.x && right.z == up.z
  {
    Vec(up.y, -up.x, up.z)
  }

  /** bottom_left_centered: the centre of square a1, half a square right and half a
      square up from the corner. */
  function BottomLeftCentered(bottomLeft: Vec, right: Vec, up: Vec): Vec {
    Add(Add(bottomLeft, Scale(0.5, right)), Scale(0.5, up))
  }

  /** The point file f and rank r (both counted from the corner, in squares) reach from
      the corner: bottom_left + f*right + r*up. */
  function BoardPoint(bottomLeft: Vec, right: Vec, up: Vec, f: real, r: real): Vec {
    Add(Add(bottomLeft, Scale(f, right)), Scale(r, up))
  }

  // ---------------------------------------------------------------------------
  // translateCoordinate
  // ---------------------------------------------------------------------------

  /** translateCoordinate: file offset ord(s[0]) - 97, rank offset int(s[1]) - 1, from
      the centre of a1. s[0] and s[1] raise IndexError on a shorter string, and int()
      raises ValueError unless s[1] is a digit. Characters after the second are never
      looked at. */
  function TranslateCoordinate(bottomLeftCentered: Vec, right: Vec, up: Vec, s: string): (r: Result<Vec>)
    ensures |s| < 2 ==> r == Err(IndexError)
    ensures |s| >= 2 ==> (r.Ok? <==> IsDigit(s[1]))
    ensures r.Err? && |s| >= 2 ==> r.error == ValueError
  {
    if |s| < 2 then Err(IndexError)
    else
      var xOffset := Scale((s[0] as int - 97) as real, right);
      match ParseInt([s[1]])
      case Err(e) => Err(e)
      case Ok(rank) =>
        var yOffset := Scale((rank - 1) as real, up);
        Ok(Add(Add(bottomLeftCentered, xOffset), yOffset))
  }

  // ---------------------------------------------------------------------------
  // The 64 squares
  // ---------------------------------------------------------------------------

  /** chr(97 + file) + str(rank): "a1" for file 0, rank 1. */
  function SquareName(rank: nat, file: nat): (s: string)
    requires 1 <= rank <= 8 && file < 8
    ensures |s| == 2 && s[0] as int == 97 + file && IsDigit(s[1]) && DigitValue(s[1]) == rank
  {
    [(97 + file) as char] + Digits(rank)
  }

  /** The candidate list: ranks 1 to 8, and within each rank files a to h. */
  function AllSquares(): (squares: seq<string>)
    ensures |squares| == 64
  {
    seq(64, k requires 0 <= k < 64 => SquareName(k / 8 + 1, k % 8))
  }

  /** The nested loops of getRandomBoard that build pos_list. */
  method CandidateSquares() returns (posList: seq<string>)
    ensures posList == AllSquares()
  {
    posList := [];
    for i := 1 to 9
      invariant |posList| == 8 * (i - 1)
      invariant forall k :: 0 <= k < |posList| ==> posList[k] == AllSquares()[k]
    {
      for j := 0 to 8
        invariant |posList| == 8 * (i - 1) + j
        invariant forall k :: 0 <= k < |posList| ==> posList[k] == AllSquares()[k]
      {
        var position := [(97 + j) as char] + Digits(i);
        assert (8 * (i - 1) + j) / 8 + 1 == i && (8 * (i - 1) + j) % 8 == j;
        posList := posList + [position];
      }
    }
  }

  /** Square (rank, file) sits at index 8*(rank - 1) + file. */
  lemma SquareAt(rank: nat, file: nat)
    requires 1 <= rank <= 8 && file < 8
    ensures AllSquares()[8 * (rank - 1) + file] == SquareName(rank, file)
  {
    var k := 8 * (rank - 1) + file;
    assert k / 8 + 1 == rank && k % 8 == file;
  }

  /** The candidate list names every square exactly once. */
  lemma SquaresDistinct()
    ensures forall p, q :: 0 <= p < q < 64 ==> AllSquares()[p] != AllSquares()[q]
  {
  }

  /** A file letter a to h followed by a rank digit 1 to 8. */
  predicate IsSquareName(s: string) {
    |s| == 2 && 'a' <= s[0] <= 'h' && '1' <= s[1] <= '8'
  }

  /** The candidate list holds exactly the well-formed square names. */
  lemma CandidatesAreSquareNames(s: string)
    ensures s in AllSquares() <==> IsSquareName(s)
  {
    if IsSquareName(s) {
      var rank, file := s[1] as int - '0' as int, s[0] as int - 97;
      SquareAt(rank, file);
      assert SquareName(rank, file) == s;
    }
  }

  /** Translating the candidate at index k finds file k % 8 and rank k / 8, counted
      from a1: the names read back as the loop indices that built them. */
  lemma TranslateCandidate(bottomLeftCentered: Vec, right: Vec, up: Vec, k: nat)
    requires k < 64
    ensures TranslateCoordinate(bottomLeftCentered, right, up, AllSquares()[k]) ==
            Ok(Add(Add(bottomLeftCentered, Scale((k % 8) as real, right)), Scale((k / 8) as real, up)))
  {
    var s := AllSquares()[k];
    var rank := k / 8 + 1;
    assert s == SquareName(rank, k % 8);
    assert Digits(rank) == [s[1]];
    ParseIntDigits(rank);
  }

  /** On a board built from its corners, the square in file f (0-based) and rank r
      lies at bottom_left + (f + 1/2)*right + (r - 1/2)*up: the middle of the square. */
  lemma TranslateSquare(bottomLeft: Vec, topLeft: Vec, rank: nat, file: nat)
    requires 1 <= rank <= 8 && file < 8
    ensures var up := UnitVectorUp(bottomLeft, topLeft);
            var right := UnitVectorRight(up);
            TranslateCoordinate(BottomLeftCentered(bottomLeft, right, up), right, up, SquareName(rank, file)) ==
              Ok(BoardPoint(bottomLeft, right, up, file as real + 0.5, rank as real - 0.5))
  {
    var up := UnitVectorUp(bottomLeft, topLeft);
    var right := UnitVectorRight(up);
    var centred := BottomLeftCentered(bottomLeft, right, up);
    var k := 8 * (rank - 1) + file;
    SquareAt(rank, file);
    TranslateCandidate(centred, right, up, k);
    assert k % 8 == file && k / 8 == rank - 1;
    CentredOffset(bottomLeft, right, up, file as real, (rank - 1) as real);
  }

  /** Stepping f squares right and r squares up from the centre of a1 reaches the
      point f + 1/2 squares right and r + 1/2 squares up from the corner. */
  lemma CentredOffset(bottomLeft: Vec, right: Vec, up: Vec, f: real, r: real)
    ensures Add(Add(BottomLeftCentered(bottomLeft, right, up), Scale(f, right)), Scale(r, up)) ==
            BoardPoint(bottomLeft, right, up, f + 0.5, r + 0.5)
  {
    var stepped := Add(Add(BottomLeftCentered(bottomLeft, right, up), Scale(f, right)), Scale(r, up));
    var point := BoardPoint(bottomLeft, right, up, f + 0.5, r + 0.5);
    Spread(bottomLeft.x, right.x, up.x, f, r);
    Spread(bottomLeft.y, right.y, up.y, f, r);
    Spread(bottomLeft.z, right.z, up.z, f, r);
    assert stepped.x == point.x && stepped.y == point.y && stepped.z == point.z;
  }

  lemma Spread(c: real, u: real, v: real, f: real, r: real)
    ensures c + 0.5 * u + 0.5 * v + f * u + r * v == c + (f + 0.5) * u + (r + 0.5) * v
  {
    calc {
      c + (f + 0.5) * u + (r + 0.5) * v;
    == { DistributeRight(f, 0.5, u); }
      c + (f * u + 0.5 * u) + (r + 0.5) * v;
    == { DistributeRight(r, 0.5, v); }
      c + (f * u + 0.5 * u) + (r * v + 0.5 * v);
    }
  }

  lemma DistributeRight(a: real, b: real, x: real)
    ensures (a + b) * x == a * x + b * x
  {
  }

  /** On a level board (up has no z part and is not zero) different squares have
      different centres. */
  lemma LevelBoardSquaresApart(bottomLeft: Vec, up: Vec, f1: real, r1: real, f2: real, r2: real)
    requires up.z == 0.0 && (up.x != 0.0 || up.y != 0.0)
    requires f1 != f2 || r1 != r2
    ensures var right := UnitVectorRight(up);
            BoardPoint(bottomLeft, right, up, f1, r1) != BoardPoint(bottomLeft, right, up, f2, r2)
  {
    var right := UnitVectorRight(up);
    if BoardPoint(bottomLeft, right, up, f1, r1) == BoardPoint(bottomLeft, right, up, f2, r2) {
      Cancel(bottomLeft.x, f1, r1, f2, r2, up.y, up.x);
      Cancel(bottomLeft.y, f1, r1, f2, r2, -up.x, up.y);
      SquarePositive(up.x, up.y);
      QuarterTurnSolve(f1 - f2, r1 - r2, up.x, up.y);
    }
  }

  /** On a level board with a non-zero edge, two different squares translate to two
      different points. */
  lemma LevelBoardSquaresDistinct(bottomLeft: Vec, topLeft: Vec, s1: string, s2: string)
    requires bottomLeft.z == topLeft.z && (bottomLeft.x != topLeft.x || bottomLeft.y != topLeft.y)
    requires IsSquareName(s1) && IsSquareName(s2) && s1 != s2
    ensures var up := UnitVectorUp(bottomLeft, topLeft);
            var right := UnitVectorRight(up);
            var centred := BottomLeftCentered(bottomLeft, right, up);
            TranslateCoordinate(centred, right, up, s1).Ok? && TranslateCoordinate(centred, right, up, s2).Ok? &&
            TranslateCoordinate(centred, right, up, s1).value != TranslateCoordinate(centred, right, up, s2).value
  {
    var up := UnitVectorUp(bottomLeft, topLeft);
    LevelUp(bottomLeft, topLeft);
    var r1, f1 := RankOf(s1), FileOf(s1);
    var r2, f2 := RankOf(s2), FileOf(s2);
    TranslateSquare(bottomLeft, topLeft, r1, f1);
    TranslateSquare(bottomLeft, topLeft, r2, f2);
    LevelBoardSquaresApart(bottomLeft, up, f1 as real + 0.5, r1 as real - 0.5, f2 as real + 0.5, r2 as real - 0.5);
  }

  /** The rank digit of a square name, 1 to 8. */
  function RankOf(s: string): (rank: nat)
    requires IsSquareName(s)
    ensures 1 <= rank <= 8
  {
    s[1] as int - '0' as int
  }

  /** The file of a square name, 0 for a to 7 for h. */
  function FileOf(s: string): (file: nat)
    requires IsSquareName(s)
    ensures file < 8 && SquareName(RankOf(s), file) == s
  {
    s[0] as int - 97
  }

  /** Corners at the same height, apart in the plane, give a level, non-zero up. */
  lemma LevelUp(bottomLeft: Vec, topLeft: Vec)
    requires bottomLeft.z == topLeft.z && (bottomLeft.x != topLeft.x || bottomLeft.y != topLeft.y)
    ensures var up := UnitVectorUp(bottomLeft, topLeft);
            up.z == 0.0 && (up.x != 0.0 || up.y != 0.0)
  {
  }

  lemma Cancel(c: real, f1: real, r1: real, f2: real, r2: real, u: real, v: real)
    requires c + f1 * u + r1 * v == c + f2 * u + r2 * v
    ensures (f1 - f2) * u + (r1 - r2) * v == 0.0
  {
    assert (f1 - f2) * u == f1 * u - f2 * u;
    assert (r1 - r2) * v == r1 * v - r2 * v;
  }

  /** The only solution of a*y + b*x == 0 and -a*x + b*y == 0 with (x, y) != 0 is
      a == b == 0. */
  lemma QuarterTurnSolve(a: real, b: real, x: real, y: real)
    requires a * y + b * x == 0.0 && a * (-x) + b * y == 0.0
    requires x * x + y * y > 0.0
    ensures a == 0.0 && b == 0.0
  {
    var n := x * x + y * y;
    assert a * n == y * (a * y + b * x) - x * (a * (-x) + b * y);
    assert b * n == x * (a * y + b * x) + y * (a * (-x) + b * y);
  }

  lemma SquarePositive(x: real, y: real)
    requires x != 0.0 || y != 0.0
    ensures x * x + y * y > 0.0
  {
    if x != 0.0 {
      assert x * x > 0.0;
    } else {
      assert y * y > 0.0;
    }
  }

  // ---------------------------------------------------------------------------
  // Piece-to-square dictionaries
  // ---------------------------------------------------------------------------

  /** One entry of a positions dictionary: a piece's object name and its square. */
  datatype Placement = Placement(piece: string, square: string)

  /** The keys of a dictionary, in insertion order. */
  function Pieces(placements: seq<Placement>): (r: seq<string>)
    ensures |r| == |placements| && forall k :: 0 <= k < |r| ==> r[k] == placements[k].piece
  {
    seq(|placements|, k requires 0 <= k < |placements| => placements[k].piece)
  }

  /** A Python dict never holds a key twice. */
  predicate DistinctPieces(placements: seq<Placement>) {
    forall p, q :: 0 <= p < q < |placements| ==> placements[p].piece != placements[q].piece
  }

  /** d[piece] = square: an existing key keeps its place and takes the new value; a
      new key goes at the end. */
  function Assign(placements: seq<Placement>, piece: string, square: string): (r: seq<Placement>)
    ensures piece in Pieces(placements) ==> Pieces(r) == Pieces(placements)
    ensures piece !in Pieces(placements) ==> r == placements + [Placement(piece, square)]
  {
    if placements == [] then [Placement(piece, square)]
    else
      var head, tail := placements[0], placements[1..];
      assert placements == [head] + tail;
      PiecesCons(head, tail);
      if head.piece == piece then
        PiecesCons(Placement(piece, square), tail);
        [Placement(piece, square)] + tail
      else
        var rest := Assign(tail, piece, square);
        PiecesCons(head, rest);
        [head] + rest
  }

  lemma PiecesCons(head: Placement, tail: seq<Placement>)
    ensures Pieces([head] + tail) == [head.piece] + Pieces(tail)
  {
  }

  /** Assigning to the key at index i of a dictionary replaces exactly that entry's
      value. */
  lemma {:induction false} AssignAt(placements: seq<Placement>, i: nat, square: string)
    requires DistinctPieces(placements) && i < |placements|
    ensures Assign(placements, placements[i].piece, square) == placements[i := Placement(placements[i].piece, square)]
  {
    var entry := Placement(placements[i].piece, square);
    if i == 0 {
      AssignHead(placements, square);
      assert [entry] + placements[1..] == placements[0 := entry];
    } else {
      var rest := placements[1..];
      assert rest[i - 1] == placements[i];
      AssignSkip(placements, placements[i].piece, square);
      DistinctTail(placements);
      AssignAt(rest, i - 1, square);
      UpdateAfterHead(placements, i, entry);
    }
  }

  lemma UpdateAfterHead<T>(s: seq<T>, i: nat, x: T)
    requires 0 < i < |s|
    ensures [s[0]] + s[1..][i - 1 := x] == s[i := x]
  {
    var lhs := [s[0]] + s[1..][i - 1 := x];
    assert |lhs| == |s|;
    forall k | 0 <= k < |s| ensures lhs[k] == s[i := x][k] {
      if k > 0 {
        assert lhs[k] == s[1..][i - 1 := x][k - 1];
      }
    }
  }

  lemma AssignHead(placements: seq<Placement>, square: string)
    requires placements != []
    ensures Assign(placements, placements[0].piece, square) == [Placement(placements[0].piece, square)] + placements[1..]
  {
  }

  lemma AssignSkip(placements: seq<Placement>, piece: string, square: string)
    requires placements != [] && placements[0].piece != piece
    ensures Assign(placements, piece, square) == [placements[0]] + Assign(placements[1..], piece, square)
  {
  }

  lemma DistinctTail(placements: seq<Placement>)
    requires placements != [] && DistinctPieces(placements)
    ensures DistinctPieces(placements[1..])
  {
    var rest := placements[1..];
    forall p, q | 0 <= p < q < |rest| ensures rest[p].piece != rest[q].piece {
      assert rest[p] == placements[p + 1] && rest[q] == placements[q + 1];
    }
  }

  /** positions_start: the 32 pieces on their opening squares. */
  const PositionsStart: seq<Placement> := [
    Placement("wK", "e1"), Placement("wQ", "d1"), Placement("wR1", "a1"), Placement("wR2", "h1"),
    Placement("wB1", "c1"), Placement("wB2", "f1"), Placement("wN1", "b1"), Placement("wN2", "g1"),
    Placement("wP1", "a2"), Placement("wP2", "b2"), Placement("wP3", "c2"), Placement("wP4", "d2"),
    Placement("wP5", "e2"), Placement("wP6", "f2"), Placement("wP7", "g2"), Placement("wP8", "h2"),
    Placement("bK", "e8"), Placement("bQ", "d8"), Placement("bR1", "a8"), Placement("bR2", "h8"),
    Placement("bB1", "c8"), Placement("bB2", "f8"), Placement("bN1", "b8"), Placement("bN2", "g8"),
    Placement("bP1", "a7"), Placement("bP2", "b7"), Placement("bP3", "c7"), Placement("bP4", "d7"),
    Placement("bP5", "e7"), Placement("bP6", "f7"), Placement("bP7", "g7"), Placement("bP8", "h7")
  ]

  /** Every piece of positions_start stands on a well-formed square. */
  lemma StartSquaresWellFormed()
    ensures forall k :: 0 <= k < |PositionsStart| ==> IsSquareName(PositionsStart[k].square)
  {
  }

  /** positions_start has 32 different pieces. */
  lemma StartPiecesDistinct()
    ensures |PositionsStart| == 32 && DistinctPieces(PositionsStart)
  {
    var codes := seq(32, k requires 0 <= k < 32 => PieceCode(PositionsStart[k].piece));
    WhiteCodesIncrease();
    WhitePawnCodesIncrease();
    BlackCodesIncrease();
    BlackPawnCodesIncrease();
    assert forall k :: 0 <= k < 31 ==> codes[k] < codes[k + 1];
    IncreasingDistinct(codes);
    forall p, q | 0 <= p < q < 32
      ensures PositionsStart[p].piece != PositionsStart[q].piece
    {
      assert codes[p] != codes[q];
    }
  }

  lemma WhiteCodesIncrease()
    ensures forall k :: 0 <= k < 8 ==> PieceCode(PositionsStart[k].piece) < PieceCode(PositionsStart[k + 1].piece)
  {
  }

  lemma WhitePawnCodesIncrease()
    ensures forall k :: 8 <= k < 16 ==> PieceCode(PositionsStart[k].piece) < PieceCode(PositionsStart[k + 1].piece)
  {
  }

  lemma BlackCodesIncrease()
    ensures forall k :: 16 <= k < 24 ==> PieceCode(PositionsStart[k].piece) < PieceCode(PositionsStart[k + 1].piece)
  {
  }

  lemma BlackPawnCodesIncrease()
    ensures forall k :: 24 <= k < 31 ==> PieceCode(PositionsStart[k].piece) < PieceCode(PositionsStart[k + 1].piece)
  {
  }

  /** A number for each piece name of positions_start, increasing along the literal:
      colour, then kind (K, Q, R, B, N, P), then the piece's digit. */
  function PieceCode(name: string): int {
    if |name| < 2 then 0
    else
      (if name[0] == 'b' then 100 else 0) +
      10 * (if name[1] == 'K' then 1 else if name[1] == 'Q' then 2 else if name[1] == 'R' then 3
            else if name[1] == 'B' then 4 else if name[1] == 'N' then 5 else 6) +
      (if |name| >= 3 then name[2] as int - '0' as int else 0)
  }

  lemma {:induction false} IncreasingDistinct(codes: seq<int>)
    requires forall k :: 0 <= k < |codes| - 1 ==> codes[k] < codes[k + 1]
    ensures forall p, q :: 0 <= p < q < |codes| ==> codes[p] < codes[q]
  {
    if |codes| > 1 {
      var init := codes[..|codes| - 1];
      IncreasingDistinct(init);
      assert forall p :: 0 <= p < |init| ==> init[p] == codes[p];
      assert forall p :: 0 <= p < |init| - 1 ==> init[p] < init[|init| - 1];
    }
  }

  /** random.sample(population, k): k entries of the population at distinct positions,
      in any order. */
  predicate IsSample(sample: seq<string>, population: seq<string>, k: nat) {
    |sample| == k &&
    (forall p :: 0 <= p < |sample| ==> sample[p] in population) &&
    (forall p, q :: 0 <= p < q < |sample| ==> sample[p] != sample[q])
  }

  /** The first 32 candidates are one possible sample, so random.sample(pos_list, 32)
      always has a result. */
  lemma SampleExists()
    ensures IsSample(AllSquares()[..32], AllSquares(), 32)
  {
    SquaresDistinct();
    var s := AllSquares()[..32];
    forall p | 0 <= p < 32 ensures s[p] in AllSquares() {
      assert s[p] == AllSquares()[p];
    }
  }

  /** The assignment loop of getRandomBoard: for idx, piece in enumerate(positions):
      positions[piece] = sample[idx]. A dictionary longer than the sample raises
      IndexError at index |sample|, keeping the values written before it. */
  method AssignSample(placements: seq<Placement>, sample: seq<string>)
    returns (result: seq<Placement>, outcome: Outcome)
    requires DistinctPieces(placements)
    ensures Pieces(result) == Pieces(placements)
    ensures outcome.Pass? <==> |placements| <= |sample|
    ensures outcome.Fail? ==> outcome.error == IndexError
    ensures forall k :: 0 <= k < |placements| ==>
              result[k].square == if k < |sample| then sample[k] else placements[k].square
  {
    result := placements;
    for idx := 0 to |placements|
      invariant idx <= |sample|
      invariant Pieces(result) == Pieces(placements) && DistinctPieces(result)
      invariant forall k :: 0 <= k < |placements| ==>
                  result[k].square == if k < idx then sample[k] else placements[k].square
    {
      if idx >= |sample| {
        return result, Fail(IndexError);
      }
      var piece := result[idx].piece;
      AssignAt(result, idx, sample[idx]);
      result := Assign(result, piece, sample[idx]);
    }
    return result, Pass;
  }

  // ---------------------------------------------------------------------------
  // Moving the pieces (movePiece, setPositions)
  // ---------------------------------------------------------------------------

  /** The locations of the scene's objects, by name: all that movePiece touches. */
  class PieceScene {
    var location: map<string, Vec>

    constructor (location: map<string, Vec>)
      ensures this.location == location
    {
      this.location := location;
    }

    /** movePiece(name, pos): bpy.data.objects[name] raises KeyError for an unknown
        name. */
    method MovePiece(name: string, pos: Vec) returns (outcome: Outcome)
      modifies this
      ensures name in old(location) ==> outcome == Pass && location == old(location)[name := pos]
      ensures name !in old(location) ==> outcome == Fail(KeyError) && location == old(location)
    {
      if name !in location {
        return Fail(KeyError);
      }
      location := location[name := pos];
      return Pass;
    }
  }

  /** The scene's locations, and the outcome, after moving the pieces of the given
      entries in order; the first translation or lookup that raises stops the loop. */
  function MoveAll(bottomLeftCentered: Vec, right: Vec, up: Vec, location: map<string, Vec>,
                   placements: seq<Placement>): (r: (Outcome, map<string, Vec>))
    ensures r.0.Fail? ==> r.0.error == KeyError || r.0.error == ValueError || r.0.error == IndexError
  {
    if placements == [] then (Pass, location)
    else
      var (outcome, moved) := MoveAll(bottomLeftCentered, right, up, location, placements[..|placements| - 1]);
      var last := placements[|placements| - 1];
      if outcome.Fail? then (outcome, moved)
      else
        match TranslateCoordinate(bottomLeftCentered, right, up, last.square)
        case Err(e) => (Fail(e), moved)
        case Ok(coord) =>
          if last.piece in moved then (Pass, moved[last.piece := coord]) else (Fail(KeyError), moved)
  }

  /** The loop of setPositions: translate each entry's square and move its piece. */
  method MovePieces(scene: PieceScene, bottomLeftCentered: Vec, right: Vec, up: Vec, placements: seq<Placement>)
    returns (outcome: Outcome)
    modifies scene
    ensures (outcome, scene.location) == MoveAll(bottomLeftCentered, right, up, old(scene.location), placements)
  {
    outcome := Pass;
    for i := 0 to |placements|
      invariant (outcome, scene.location) == MoveAll(bottomLeftCentered, right, up, old(scene.location), placements[..i])
      invariant outcome.Pass?
    {
      assert placements[..i + 1][..i] == placements[..i];
      var coord := TranslateCoordinate(bottomLeftCentered, right, up, placements[i].square);
      if coord.Err? {
        assert placements[..i + 1] == placements[..i] + [placements[i]];
        PrefixFailureSticks(bottomLeftCentered, right, up, old(scene.location), placements, i + 1);
        return Fail(coord.error);
      }
      outcome := scene.MovePiece(placements[i].piece, coord.value);
      if outcome.Fail? {
        PrefixFailureSticks(bottomLeftCentered, right, up, old(scene.location), placements, i + 1);
        return;
      }
    }
    assert placements[..|placements|] == placements;
  }

  /** Once the loop has stopped, the remaining entries change nothing. */
  lemma {:induction false} PrefixFailureSticks(bottomLeftCentered: Vec, right: Vec, up: Vec,
                                               location: map<string, Vec>, placements: seq<Placement>, i: nat)
    requires i <= |placements|
    requires MoveAll(bottomLeftCentered, right, up, location, placements[..i]).0.Fail?
    ensures MoveAll(bottomLeftCentered, right, up, location, placements) ==
            MoveAll(bottomLeftCentered, right, up, location, placements[..i])
    decreases |placements| - i
  {
    if i < |placements| {
      assert placements[..i + 1][..i] == placements[..i];
      PrefixFailureSticks(bottomLeftCentered, right, up, location, placements, i + 1);
    } else {
      assert placements[..i] == placements;
    }
  }

  /** Moving succeeds exactly when every piece named exists in the scene and every
      square translates; then exactly the named pieces have moved, each to its square,
      and every other object stays where it was. */
  lemma MoveAllMovesExactlyNamed(bottomLeftCentered: Vec, right: Vec, up: Vec,
                                 location: map<string, Vec>, placements: seq<Placement>)
    requires DistinctPieces(placements)
    ensures var (outcome, moved) := MoveAll(bottomLeftCentered, right, up, location, placements);
            (outcome.Pass? <==>
               forall k :: 0 <= k < |placements| ==>
                 placements[k].piece in location &&
                 TranslateCoordinate(bottomLeftCentered, right, up, placements[k].square).Ok?) &&
            (outcome.Pass? ==>
               moved.Keys == location.Keys &&
               (forall k :: 0 <= k < |placements| ==>
                  moved[placements[k].piece] ==
                    TranslateCoordinate(bottomLeftCentered, right, up, placements[k].square).value) &&
               (forall name :: name in location && name !in Pieces(placements) ==> moved[name] == location[name]))
  {
    MoveAllKeepsObjects(bottomLeftCentered, right, up, location, placements);
    MoveAllPasses(bottomLeftCentered, right, up, location, placements);
    if MoveAll(bottomLeftCentered, right, up, location, placements).0.Pass? {
      MoveAllPlaces(bottomLeftCentered, right, up, location, placements);
      var moved := MoveAll(bottomLeftCentered, right, up, location, placements).1;
      forall name | name in location && name !in Pieces(placements)
        ensures moved[name] == location[name]
      {
        MoveAllLeavesOthers(bottomLeftCentered, right, up, location, placements, name);
      }
      assert forall k :: 0 <= k < |placements| ==>
               TranslateCoordinate(bottomLeftCentered, right, up, placements[k].square) == Ok(moved[placements[k].piece]);
    }
  }

  /** Moving pieces never adds or removes an object of the scene. */
  lemma {:induction false} MoveAllKeepsObjects(bottomLeftCentered: Vec, right: Vec, up: Vec,
                                               location: map<string, Vec>, placements: seq<Placement>)
    ensures MoveAll(bottomLeftCentered, right, up, location, placements).1.Keys == location.Keys
  {
    if placements != [] {
      MoveAllKeepsObjects(bottomLeftCentered, right, up, location, placements[..|placements| - 1]);
    }
  }

  /** The loop gets to the end exactly when every piece exists and every square
      translates. */
  lemma {:induction false} MoveAllPasses(bottomLeftCentered: Vec, right: Vec, up: Vec,
                                         location: map<string, Vec>, placements: seq<Placement>)
    ensures MoveAll(bottomLeftCentered, right, up, location, placements).0.Pass? <==>
            forall k :: 0 <= k < |placements| ==>
              placements[k].piece in location &&
              TranslateCoordinate(bottomLeftCentered, right, up, placements[k].square).Ok?
  {
    if placements != [] {
      var init := placements[..|placements| - 1];
      MoveAllPasses(bottomLeftCentered, right, up, location, init);
      MoveAllKeepsObjects(bottomLeftCentered, right, up, location, init);
      assert forall k :: 0 <= k < |init| ==> init[k] == placements[k];
    }
  }

  /** After a complete loop over a dictionary, each named piece stands at its square's
      point. */
  lemma {:induction false} MoveAllPlaces(bottomLeftCentered: Vec, right: Vec, up: Vec,
                                         location: map<string, Vec>, placements: seq<Placement>)
    requires DistinctPieces(placements)
    requires MoveAll(bottomLeftCentered, right, up, location, placements).0.Pass?
    ensures var moved := MoveAll(bottomLeftCentered, right, up, location, placements).1;
            forall k :: 0 <= k < |placements| ==>
              placements[k].piece in moved &&
              TranslateCoordinate(bottomLeftCentered, right, up, placements[k].square) == Ok(moved[placements[k].piece])
  {
    if placements != [] {
      var init := placements[..|placements| - 1];
      var last := placements[|placements| - 1];
      var moved := MoveAll(bottomLeftCentered, right, up, location, placements).1;
      var (outcome0, moved0) := MoveAll(bottomLeftCentered, right, up, location, init);
      var coord := TranslateCoordinate(bottomLeftCentered, right, up, last.square);
      assert outcome0.Pass? && coord.Ok? && moved == moved0[last.piece := coord.value];
      assert DistinctPieces(init);
      MoveAllPlaces(bottomLeftCentered, right, up, location, init);
      forall k | 0 <= k < |placements|
        ensures placements[k].piece in moved &&
                TranslateCoordinate(bottomLeftCentered, right, up, placements[k].square) == Ok(moved[placements[k].piece])
      {
        if k < |init| {
          assert init[k] == placements[k];
          assert placements[k].piece != last.piece;
        }
      }
    }
  }

  /** Objects the dictionary does not name are never moved. */
  lemma {:induction false} MoveAllLeavesOthers(bottomLeftCentered: Vec, right: Vec, up: Vec,
                                               location: map<string, Vec>, placements: seq<Placement>, name: string)
    requires name in location && name !in Pieces(placements)
    ensures var moved := MoveAll(bottomLeftCentered, right, up, location, placements).1;
            name in moved && moved[name] == location[name]
  {
    if placements != [] {
      var init := placements[..|placements| - 1];
      assert Pieces(placements) == Pieces(init) + [placements[|init|].piece];
      MoveAllLeavesOthers(bottomLeftCentered, right, up, location, init, name);
    }
  }
}
