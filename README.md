# BlendGen, modelled in Dafny

BlendGen drives Blender to make labelled training images. It imports a 3D prop, puts
copies of it on a grid, points a camera at the grid and renders numbered stills into a
fresh `renderNNN_...` folder. Nearly everything it does is a call into Blender. This
project models the parts that are the program's own logic, with Blender's state
reduced to plain values and objects. Each part is proved against what the code
promises.

- **Grid** (`grid.dfy`, blendgen/blender_objects.py) is the placement lattice.
  - The constructor's while loop picks the least side `n` with `n³ >= n_spots`.
  - The triple loop lists the `n×n×n` slots spaced two apart, and the centre is
    computed from `n`.
  - `populate` puts the k-th copy of a prop on the k-th slot with segmentation index k.
  - It is a `class` whose methods update its fields.
- **Utils** (`utils.dfy`) covers three things from blendgen/utils.py:
  - the scan that picks the next `renderNNN` number;
  - the folder name built from that number;
  - the clamp on the number of segmentation classes, and the fill arithmetic of the
    text progress bar.
- **Render** (`render.dfy`) is the render loop of blendgen/render.py over a `Scene`
  object. The object records the camera, the resolution, the output path, and every
  still written.
- **Blender**, **BinBlender** and **MainBlender** are the three entry scripts:
  - blendgen/blender.py: prop-path normalisation, argument handling, and `run`;
  - bin/blender.py: the older single-image `render` and its prop path;
  - main_blender.py: `load_prop_paths` and the argument split.

  **Argv** is the `sys.argv[sys.argv.index("--") + 1:]` split that all three share.
- **ChessBoard**, **Chess** and **TestingChess** cover the chess-board scripts in
  testing-chess/:
  - the basis vectors of a board given by two corners, and the translation of a square
    name to a point;
  - the 64 candidate squares, and the random board;
  - moving the named pieces of a scene.
- **Text** and **Results** are shared helpers.
  - **Text** holds Python's slicing, `lstrip`, `str.endswith`, `int()`, `str()` and
    `f"{n:03d}"` on strings.
  - **Results** holds the exceptions the code can raise: `ValueError`, `IndexError`,
    `KeyError` and `ZeroDivisionError`.

The chess scripts' dictionaries are modelled as insertion-ordered sequences of entries,
because their iteration order decides what the loops do. The dictionary of
`load_prop_paths` is a `map`, which keeps its keys and values but not their order.
A raised exception becomes an `Err` or `Fail` value carrying its kind; a lookup
`bpy.data.objects[name]` raises KeyError for a name the scene does not hold. A random
choice is modelled as a nondeterministic choice constrained by what `random.choice`
and `random.sample` guarantee. Directory listings, the clock, `bpy.path.abspath`, the
objects a scene holds and the prop files that exist (with the name of the object each
imports) are inputs.

## Model

| member | source | states |
|---|---|---|
| Text.Slice | blendgen/utils.py:149-150 | `s[lo:hi]` has length `min(hi,len)-min(lo,len)`, and its k-th character is `s[lo+k]` (Python slicing past the end) |
| Text.LastChars | blendgen/blender.py:41 | `s[-n:]` is the last `min(n, len(s))` characters of `s` |
| Text.LStrip | blendgen/utils.py:150 | `lstrip(c)` returns a suffix of the input that does not begin with `c`; every character removed was `c` |
| Text.ParseInt | blendgen/utils.py:151 | `int()` on a plain string succeeds exactly on an optional sign followed by at least one ASCII digit; otherwise it raises ValueError; unsigned input gives a non-negative value |
| Text.ParseIntDigits | blendgen/blender.py:71-72 | `int(str(n)) == n` for every n >= 0 |
| Text.DigitsLength3 | blendgen/render.py:18 | `str(n)` has at most three digits exactly when n <= 999 |
| Text.ZeroPad3Strip | blendgen/utils.py:150-156 | stripping the leading zeros of `f"{n:03d}"` gives `str(n)` for n >= 1 |
| Text.ZeroPad3Injective | blendgen/render.py:18 | different numbers >= 1 have different `f"{n:03d}"` |
| Text.ZeroPad3Order | blendgen/render.py:18 | up to 999, `f"{a:03d}"` followed by a common suffix sorts before `f"{b:03d}"` followed by it exactly when a < b |
| Text.LexLessCommonPrefix | blendgen/render.py:19 | a common prefix does not change string order |
| Text.RepeatCharAt | blendgen/utils.py:201 | `c * n` is n characters, every one `c` |
| Text.Repeat | blendgen/utils.py:201 | `s * n` has n·len(s) characters (none for n <= 0); when s is one character, every character of the result is it |
| Text.Digits | blendgen/render.py:18 | `str(n)` for n >= 0 is at least one decimal digit and begins with '0' only for n = 0 |
| Text.ZeroPad3Shape | blendgen/utils.py:155 | `f"{n:03d}"` is `str(n)` when that has three or more digits; otherwise it is three characters, '0's followed by `str(n)` |
| Text.ParseIntThreeChars | blendgen/utils.py:150-151 | `int()` of at most three characters, when it succeeds, lies between -99 and 999 |
| Grid.CubeSide | blendgen/blender_objects.py:218-220 | the while loop ends at the least n >= 1 with n³ >= n_spots |
| Grid.LatticeCoordinates | blendgen/blender_objects.py:225-230 | the triple loop builds exactly the lattice: slot p is (2i, 2j, 2k) for p = (i·n+j)·n+k |
| Grid.Lattice | blendgen/blender_objects.py:225-230 | the coordinate list has n³ entries |
| Grid.Grid.constructor | blendgen/blender_objects.py:211-233 | a new grid keeps n_spots, has no props, its coordinate list is the lattice of the least cube side, and its centre is n-1 on every axis |
| Grid.Grid.Populate | blendgen/blender_objects.py:235-241 | the idx-th new prop copies a listed name, has pass_index idx and stands on slot idx. Earlier props, the coordinate list and the centre are unchanged. IndexError occurs when slots run out or the name list is empty, and the props appended before it are kept |
| Grid.EnoughSlots | blendgen/blender_objects.py:218-230 | the grid always has at least n_spots slots, and at least one |
| Grid.LatticeAt | blendgen/blender_objects.py:226-230 | (2i, 2j, 2k) sits at index i·n²+j·n+k: the loop order is lexicographic in (i, j, k) |
| Grid.LatticeDistinct | blendgen/blender_objects.py:225-230 | no two slots coincide |
| Grid.LatticeBounds | blendgen/blender_objects.py:229 | every component of every slot is even and lies in [0, 2(n-1)] |
| Grid.CenterIsMidpoint | blendgen/blender_objects.py:223-224 | the centre is the midpoint of the first slot (the origin) and the last slot on every axis |
| Grid.FewSpotsSingleSlot | blendgen/blender_objects.py:218-230 | with n_spots <= 1 the lattice is the single slot (0, 0, 0) |
| Utils.ClampInstances | blendgen/utils.py:74-76 | 32 or more classes become 31, and fewer stay as they are |
| Utils.ReadFolderRange | blendgen/utils.py:149-151 | a folder is skipped exactly when its name does not begin with "render"; a number read from one lies between -99 and 999 |
| Utils.RenderNumberRange | blendgen/utils.py:146-153 | whatever the listing, the scan proposes a number from 1 to 1000, or raises ValueError |
| Utils.NextRenderNumber | blendgen/utils.py:146-154 | the scan loop over the subfolder names returns the scan's number, or ValueError (the same loop as bin/blender.py:58-66) |
| Utils.RenderNumberIsNextFree | blendgen/utils.py:146-154 | the scan fails exactly when some "render" folder has an unreadable number. Otherwise the result is at least 1, above every number read, and one more than the largest read (1 when none is) |
| Utils.NonRenderFolderIgnored | blendgen/utils.py:149 | a folder not beginning with "render" never changes the result, wherever it stands in the listing |
| Utils.OnlyThreeDigitsRead | blendgen/utils.py:150 | an instance of OnlyWindowRead: "render1234_x" reads as 123 |
| Utils.OnlyWindowRead | blendgen/utils.py:149-151 | two names that agree on beginning with "render" and on characters 6 to 8 read the same: nothing else of a name is read |
| Utils.ZeroWindowUnreadable | blendgen/utils.py:150-151 | a "render" folder whose characters 6 to 8 are empty or all '0' makes `int()` raise ValueError |
| Utils.RenderFolderNameReadsBack | blendgen/utils.py:150-156 | for 1 <= n <= 999 the folder name built for n begins with "render" and reads back as n |
| Utils.RenderFolderNameShape | blendgen/utils.py:155 | the folder name begins with "render" and ends with "_" + prop + "_" + date |
| Utils.NextScanAdvances | blendgen/utils.py:146-156 | once the proposed folder exists, the next scan proposes the following number (up to 999) |
| Utils.ScanStallsPast999 | blendgen/utils.py:146-156 | after render999 and render1000 the scan proposes 1000 again, because the folder for 1000 reads as 100 |
| Utils.CreateRenderDirectory | blendgen/utils.py:143-156 | a non-empty folder_name gives base + folder_name with no scan. Otherwise the result is base + "render" + `f"{n:03d}"` + "_" + prop + "_" + date for the scan's n >= 1, or the scan's error |
| Utils.FloorDiv | blendgen/utils.py:201 | `a // b` is the floor of a/b for either sign of b |
| Utils.ProgressBar | blendgen/utils.py:199-201 | total = 0 raises ZeroDivisionError and nothing else does; for 0 <= iteration <= total, length >= 0 and a one-character fill the bar is exactly length characters |
| Utils.ProgressBarShape | blendgen/utils.py:200-201 | for 0 <= iteration <= total the filled count is floor(length·iteration/total), between 0 and length. The bar is exactly length characters: that many fill characters, then '-' |
| Utils.FilledMonotone | blendgen/utils.py:201 | the filled count never shrinks as the iteration grows |
| Render.Stills | blendgen/render.py:10-23 | a completed render writes exactly max(n_images, 0) stills |
| Render.ImageFilePathShape | blendgen/render.py:18-19 | every image lies directly in the render directory, in a file named "render…" ending in ".png" |
| Render.Scene.Render | blendgen/render.py:3-23 | sets the camera and the resolution, then writes image i to render_directory + "/render" + `f"{i+1:03}"` + ".png" for each i < n_images. The scene path ends at the last image. A resolution list shorter than two raises IndexError after the assignments before the missing item |
| Render.ImageFilePathsDistinct | blendgen/render.py:18-19 | different images never share a file |
| Render.ImageFileNameLength | blendgen/render.py:18 | up to image 999 every file name has 13 characters |
| Render.ImageFilePathsSortInRenderOrder | blendgen/render.py:18-19 | up to image 999, string order of the paths is render order |
| Argv.FirstIndex | blendgen/blender.py:69 | `list.index` returns the first position of the value |
| Argv.ArgsAfterDashes | blendgen/blender.py:69 | ValueError exactly when there is no "--"; otherwise the arguments after the first "--" |
| Argv.ArgsAfterDashesRoundTrip | main_blender.py:13 | Blender's own arguments (without "--") + "--" + the script's arguments give back exactly the script's arguments |
| Blender.ForceBlendSuffix | blendgen/blender.py:41-42 | the result ends with ".blend". It is the input exactly when the input already ends so, and otherwise the input + ".blend" |
| Blender.ForceBlendSuffixIdempotent | blendgen/blender.py:41-42 | applying the suffix step to its own result changes nothing |
| Blender.PrefixKeepsBlendSuffix | blendgen/blender.py:40-41 | "props/" + name ends with ".blend" exactly when name does |
| Blender.PropPathRel | blendgen/blender.py:40-42 | the relative path starts with "props/" and ends with ".blend". It is "props/" + name when the name ends with ".blend", and "props/" + name + ".blend" otherwise |
| Blender.PropPath | blendgen/blender.py:43-44 | the full path starts with dir_path + "props/" and ends with ".blend" |
| Blender.ParseRunArguments | blendgen/blender.py:69-73 | the prop name, `int()` of the next two and the fourth argument if present (else None). Errors follow Python's left-to-right order: ValueError without "--"; IndexError with fewer than two arguments; ValueError for a bad second; IndexError without a third; ValueError for a bad third; otherwise the result is Ok |
| Blender.ParseRunArgumentsRoundTrip | blendgen/blender.py:69-73 | a prop name, two counts written in decimal and an optional folder name after "--" are read back as exactly those values |
| Blender.Run | blendgen/blender.py:36-65 | the script stops with the relative path exactly when dir_path + the relative path is not an existing prop file, and the scene is then untouched. Otherwise the grid for n_instances holds one copy of the imported object, on slot (0,0,0) with pass_index 0. The scan fails exactly when no folder name is given and a "render" folder is unreadable; the scene is then untouched. Otherwise camera "test_camera", 350×350, the stills go to the directory createRenderDirectory picks, and the scene path is the last image's |
| BinBlender.TestImagePath | bin/blender.py:72 | the image path is the folder followed by "/test.png" |
| BinBlender.TestFolderNameReadsBack | bin/blender.py:68 | the folder made for number n (1 to 999), "render" + `f"{n:03d}"` + "_" + date, reads back as n in the next scan |
| BinBlender.RenderTest | bin/blender.py:47-79 | without a scene object "Camera" KeyError is raised and the scene is untouched. Otherwise sets camera "Camera" and the resolution, then writes one still to base + "render" + `f"{n:03d}"` + "_" + date + "/test.png" for the scan's n. The scan's error and a short resolution list write nothing |
| BinBlender.SuccessiveRunsAdvance | bin/blender.py:58-68 | once a run's folder exists, the next run's scan proposes the following number (up to 999) |
| BinBlender.PropPath | bin/blender.py:83-89 | dir_path + the first argument after "--"; ValueError without "--", IndexError without an argument |
| BinBlender.PropPathRoundTrip | bin/blender.py:83-89 | the prop named right after "--" is the one loaded, whatever follows |
| BinBlender.Script | bin/blender.py:81-95 | the prop path from the command line; its error leaves the scene untouched. Then the test render at 512×512 with camera "Camera": KeyError without that object, the scan's error with nothing written, or one still at the folder's "/test.png", which is also the scene path |
| MainBlender.PathJoin | main_blender.py:26 | POSIX `os.path.join`: an absolute second part replaces the first. Otherwise the result starts with the first part and ends with the second, with one '/' between them when needed |
| MainBlender.Stem | main_blender.py:27 | `filename[:-6]` + ".blend" is the filename again |
| MainBlender.PropPaths | main_blender.py:22-30 | the dictionary after the listing has at most one entry per listed file |
| MainBlender.LoadPropPaths | main_blender.py:22-30 | the loop builds the same dictionary as PropPaths over the listing |
| MainBlender.PropPathsEntries | main_blender.py:24-28 | a name is a key exactly when name + ".blend" is listed, and its value is the folder joined with that filename |
| MainBlender.NoBlendFilesNoEntries | main_blender.py:24-25 | a listing without ".blend" files gives an empty dictionary |
| MainBlender.StemInjective | main_blender.py:27 | different ".blend" files have different prop names, so there is one entry per file |
| MainBlender.ParseMainArguments | main_blender.py:13-17 | the first two arguments after "--" and `int()` of the next two. Errors follow Python's left-to-right order: ValueError without "--"; IndexError with fewer than three arguments; ValueError for a bad third; IndexError without a fourth; ValueError for a bad fourth; otherwise the result is Ok |
| MainBlender.ParseMainArgumentsRoundTrip | main_blender.py:13-17 | four arguments with the counts written in decimal are read back as exactly those values |
| ChessBoard.UnitVectorUp | testing-chess/chess.py:39 | eight steps of the up vector lead from bottom_left to top_left |
| ChessBoard.UnitVectorRight | testing-chess/chess.py:41-43 | right is (up.y, -up.x, up.z). It is as long as up, and its dot product with up is up.z², so it is perpendicular exactly on a level board |
| ChessBoard.TranslateCoordinate | testing-chess/chess.py:62-71 | IndexError for a name shorter than two characters. Otherwise the result is a point exactly when the second character is a digit, and ValueError when it is not |
| ChessBoard.SquareName | testing-chess/chess.py:27 | `chr(97+j) + str(i)` is two characters: the file letter and the rank digit |
| ChessBoard.AllSquares | testing-chess/chess.py:25-28 | the candidate list has 64 entries (SquareAt and CandidatesAreSquareNames say which) |
| ChessBoard.CandidateSquares | testing-chess/chess.py:25-28 | the nested loops build the 64-entry candidate list, rank by rank |
| ChessBoard.SquareAt | testing-chess/chess.py:25-28 | square (rank, file) is at index 8·(rank-1)+file |
| ChessBoard.SquaresDistinct | testing-chess/chess.py:25-28 | the candidate list names no square twice |
| ChessBoard.CandidatesAreSquareNames | testing-chess/chess.py:25-28 | a string is a candidate exactly when it is a letter a-h followed by a digit 1-8 |
| ChessBoard.TranslateCandidate | testing-chess/chess.py:67-69 | the candidate at index k translates to file k mod 8 and rank k div 8 from the centre of a1 |
| ChessBoard.TranslateSquare | testing-chess/chess.py:38-71 | on a board built from two corners, square (rank, file) lies at bottom_left + (file+½)·right + (rank-½)·up, the middle of the square |
| ChessBoard.CentredOffset | testing-chess/chess.py:49 | bottom_left_centered is half a square right and half a square up from the corner |
| ChessBoard.LevelBoardSquaresApart | testing-chess/chess.py:39-49 | on a level board with a non-zero edge, different file/rank offsets give different points |
| ChessBoard.LevelBoardSquaresDistinct | testing-chess/chess.py:62-71 | on a level board with a non-zero edge, two different square names translate to two different points |
| ChessBoard.Assign | testing-chess/chess.py:32 | `d[key] = value` keeps the keys in place when the key exists, and appends the entry when it does not |
| ChessBoard.AssignAt | testing-chess/chess.py:31-32 | assigning to the key at index i replaces exactly that entry's value |
| ChessBoard.StartSquaresWellFormed | testing-chess/chess.py:7 | every opening square is a well-formed square name |
| ChessBoard.StartPiecesDistinct | testing-chess/chess.py:7 | positions_start has 32 different pieces |
| ChessBoard.SampleExists | testing-chess/chess.py:29 | `random.sample(pos_list, 32)` always has a result |
| ChessBoard.AssignSample | testing-chess/chess.py:31-32 | the loop keeps the keys and their order and gives the k-th key the k-th sampled square. A dictionary longer than the sample raises IndexError, keeping the values written before it |
| ChessBoard.PieceScene.MovePiece | testing-chess/chess.py:13-16 | moves the named object, or raises KeyError for an unknown name without changing anything |
| ChessBoard.MovePieces | testing-chess/chess.py:58-60 | the loop leaves the scene and the outcome as MoveAll over the entries |
| ChessBoard.MoveAll | testing-chess/chess.py:13-16 | the setPositions loop, entry by entry, can only raise KeyError (an unknown piece), IndexError or ValueError (a malformed square) |
| ChessBoard.PrefixFailureSticks | testing-chess/chess.py:58-60 | once the loop has raised, the remaining entries change nothing |
| ChessBoard.MoveAllKeepsObjects | testing-chess/chess.py:13-16 | moving pieces never adds or removes an object of the scene |
| ChessBoard.MoveAllPasses | testing-chess/chess.py:58-60 | the loop completes exactly when every piece exists in the scene and every square translates |
| ChessBoard.MoveAllPlaces | testing-chess/chess.py:58-60 | after a complete loop each named piece stands at its square's point |
| ChessBoard.MoveAllLeavesOthers | testing-chess/chess.py:58-60 | objects the dictionary does not name are never moved |
| ChessBoard.MoveAllMovesExactlyNamed | testing-chess/chess.py:58-60 | combines the four above: completes exactly when all pieces exist and all squares translate, and then exactly the named pieces move, each to its square |
| Chess.GetRandomBoard | testing-chess/chess.py:18-34 | the result has the pieces of positions_start in their order, on pairwise different squares from the candidate list |
| Chess.SampleAssigned | testing-chess/chess.py:29-32 | values taken in order from a sample of the candidate list make such a board |
| Chess.Board.constructor | testing-chess/chess.py:38-51 | the board's up and right vectors, corner, centre of a1 and its own copy of positions_start |
| Chess.Board.SetPositions | testing-chess/chess.py:54-60 | moves the pieces of the dictionary as MoveAll does |
| Chess.Board.Randomise | testing-chess/chess.py:73-75 | the scene ends as MoveAll over some random board |
| Chess.Board.Reset | testing-chess/chess.py:77-79 | the scene ends as MoveAll over positions_start |
| Chess.ResetMovesEveryPiece | testing-chess/chess.py:77-79 | on a scene holding the 32 pieces, reset completes. Every piece stands on its opening square's point, and every other object stays |
| Chess.RandomBoardPiecesApart | testing-chess/chess.py:73-75 | on a level board, after randomise no two pieces share a point |
| TestingChess.PositionsDict.constructor | testing-chess/testing_chess.py:61-94 | the module-level dictionary starts as the 32 opening squares, with different keys |
| TestingChess.Board.constructor | testing-chess/testing_chess.py:18-30 | the board's up and right vectors, corner and centre of a1 |
| TestingChess.SetPositions | testing-chess/testing_chess.py:40-44 | moves the pieces of the dictionary as MoveAll does |
| TestingChess.GetRandomBoard | testing-chess/testing_chess.py:47-58 | overwrites the module-level dictionary in place and returns that same object. Keys and their order are kept; the first 32 keys get pairwise different candidate squares, and later keys keep their squares. It completes exactly when there are at most 32 keys, and raises IndexError otherwise |

## Left out

- Camera and light numerics are not part of this model. This covers the spherical moves, `look_at`, the projection and view-angle maths, `Grid.distance_to_edge` and `Light.random_energy`. They are floating-point and `numpy`/`mathutils` work.
- Blender operations are not modelled: deleting the scene, importing and duplicating props, setting origins and materials, the segmentation shader graph, and `bpy.ops.render.render`. A rendered still is recorded as a `Still` value in the `Scene`.
- Grid.Grid.Populate: the `Prop` constructor's object copying and random rotation are not modelled; a prop is its name, pass_index and location.
- Utils.CreateRenderDirectory: `os.makedirs`, `os.mkdir`, `os.path.exists` and the overwrite prompt with `sys.exit` are not modelled. The subfolder listing and the date string are inputs.
- The stdout redirection helpers and the percent text and printing of the progress bar are not modelled (floating point and I/O).
- Utils.NextRenderNumber: takes only names on which `int()` means "optional sign, then ASCII digits" (no whitespace, `_` or non-ASCII digits, which Python's `int()` also accepts). The same precondition carries over to Utils.CreateRenderDirectory, Blender.Run, BinBlender.RenderTest and BinBlender.Script.
- Blender.ParseRunArguments: a count such as " 3" or "1_0", which Python's `int()` accepts, gives ValueError here.
- MainBlender.ParseMainArguments: a count such as " 3" or "1_0", which Python's `int()` accepts, gives ValueError here.
- BinBlender.RenderTest: `os.scandir` and `os.mkdir` are not modelled; the subfolder listing and the date are inputs, and the folder is not created.
- MainBlender.LoadPropPaths: the dictionary is a `map`, so the order of its entries (the listing order of the .blend files) is not kept.
- Text.ParseInt: models `int()` only on plain strings (an optional sign, then ASCII digits); on other strings Python accepts more.
- ChessBoard.TranslateCoordinate: a non-ASCII Unicode digit as the second character gives ValueError here, while Python's `int()` accepts it.
- Vectors are exact real numbers, not floating-point numbers (Python floats, single-precision `mathutils.Vector` components); rounding is not modelled. Grid coordinates and the grid centre are exact integers, which the source's float centre equals because the side length is 2.
- Random choices are nondeterministic: `random.choice` picks some listed name, and `random.sample` some sample of distinct candidates. The distribution is not modelled.
- Blender.Run: `quit()` after a missing prop file is the `PropNotFound` outcome. Which prop files exist, and the name of the object each imports, are an input.
- The Camera object of `run` is reduced to its name.
- Render.ImageFilePathsSortInRenderOrder: proved for the first 999 images only. Beyond that the numbers grow to four digits and string order is no longer render order.
- Utils.NextScanAdvances: proved for numbers up to 999 only. Utils.ScanStallsPast999 shows what happens after that.
- `getPiece` is a one-line object lookup that no modelled operation calls, so it is not modelled.
- In testing-chess/testing_chess.py the dictionary is a module-level global. It is modelled as a `PositionsDict` object passed to the operations that use it.
- main.py, generate.py, setup.py and blendgen/generate.py (argparse, subprocess and orchestration) are not part of this model.
