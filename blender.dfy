/** blendgen/blender.py: the script Blender runs. It turns a prop name into the path of
    its .blend file, builds a grid holding one copy of the imported prop, picks the
    output folder and renders the images. */
module Blender {
  import opened Results
  import opened Text
  import opened Argv
  import opened Grid
  import opened Utils
  import opened Render

  // ---------------------------------------------------------------------------
  // The prop path
  // ---------------------------------------------------------------------------

  /** The suffix step of run(): ".blend" is appended unless the last six characters
      already are ".blend". */
  function ForceBlendSuffix(path: string): (r: string)
    ensures EndsWith(r, ".blend")
    ensures r == path <==> EndsWith(path, ".blend")
    ensures r != path ==> r == path + ".blend"
  {
    if LastChars(path, 6) != ".blend" then path + ".blend" else path
  }

  /** The path of the prop's .blend file relative to the project folder: "props/"
      followed by the prop name, with ".blend" added when the name lacks it. */
  function PropPathRel(propName: string): (rel: string)
    ensures StartsWith(rel, "props/")
    ensures EndsWith(rel, ".blend")
    ensures EndsWith(propName, ".blend") ==> rel == "props/" + propName
    ensures !EndsWith(propName, ".blend") ==> rel == "props/" + propName + ".blend"
  {
    PrefixKeepsBlendSuffix(propName);
    var rel := ForceBlendSuffix("props/" + propName);
    assert rel[..6] == "props/";
    rel
  }

  /** The full path: the project folder immediately followed by the relative path. */
  function PropPath(dirPath: string, propName: string): (path: string)
    ensures StartsWith(path, dirPath + "props/")
    ensures EndsWith(path, ".blend")
  {
    var rel := PropPathRel(propName);
    JoinedKeepsEnds(dirPath, rel, "props/", ".blend");
    dirPath + rel
  }

  lemma JoinedKeepsEnds(a: string, b: string, prefix: string, suffix: string)
    requires StartsWith(b, prefix) && EndsWith(b, suffix)
    ensures StartsWith(a + b, a + prefix) && EndsWith(a + b, suffix)
  {
    assert (a + b)[..|a| + |prefix|] == a + b[..|prefix|];
    assert (a + b)[|a + b| - |suffix|..] == b[|b| - |suffix|..];
  }

  /** No character of "props/" is '.', so the prefix never completes a ".blend" suffix:
      the prefixed name ends with ".blend" exactly when the name does. */
  lemma PrefixKeepsBlendSuffix(propName: string)
    ensures EndsWith("props/" + propName, ".blend") <==> EndsWith(propName, ".blend")
  {
    var s := "props/" + propName;
    if |propName| >= 6 {
      assert s[|s| - 6..] == propName[|propName| - 6..];
    } else if |s| >= 6 {
      assert s[|s| - 6] == "props/"[|propName|];
    }
  }

  /** Applying the suffix step to its own result changes nothing. */
  lemma ForceBlendSuffixIdempotent(path: string)
    ensures ForceBlendSuffix(ForceBlendSuffix(path)) == ForceBlendSuffix(path)
  {
  }

  // ---------------------------------------------------------------------------
  // The command line
  // ---------------------------------------------------------------------------

  /** The script's arguments: prop name, number of images, number of instances and an
      optional output folder name. */
  datatype RunArguments = RunArguments(propName: string, nImages: int, nInstances: int,
                                       folderName: Option<string>)

  /** The __main__ block: the arguments after "--" are the prop name, int(n_images),
      int(n_instances) and, when there is a fourth, the folder name. Python evaluates
      them left to right, so a missing second argument raises IndexError, a bad second
      argument ValueError before a missing third is noticed, and so on. */
  function ParseRunArguments(argv: seq<string>): (r: Result<RunArguments>)
    ensures ArgsAfterDashes(argv).Err? ==> r == Err(ValueError)
    ensures r.Ok? ==>
              var args := ArgsAfterDashes(argv).value;
              |args| >= 3 && r.value.propName == args[0] &&
              ParseInt(args[1]) == Ok(r.value.nImages) && ParseInt(args[2]) == Ok(r.value.nInstances) &&
              r.value.folderName == (if |args| >= 4 then Some(args[3]) else None)
    ensures ArgsAfterDashes(argv).Ok? ==>
              var args := ArgsAfterDashes(argv).value;
              if |args| < 2 then r == Err(IndexError)
              else if ParseInt(args[1]).Err? then r == Err(ValueError)
              else if |args| < 3 then r == Err(IndexError)
              else if ParseInt(args[2]).Err? then r == Err(ValueError)
              else r.Ok?
  {
    match ArgsAfterDashes(argv)
    case Err(e) => Err(e)
    case Ok(args) =>
      if |args| < 2 then Err(IndexError)
      else
        match ParseInt(args[1])
        case Err(e) => Err(e)
        case Ok(nImages) =>
          if |args| < 3 then Err(IndexError)
          else
            match ParseInt(args[2])
            case Err(e) => Err(e)
            case Ok(nInstances) =>
              Ok(RunArguments(args[0], nImages, nInstances, if |args| >= 4 then Some(args[3]) else None))
  }

  /** A command line whose script part is a prop name, two counts written as decimal
      numerals and optionally a folder name is read back as exactly those values. */
  lemma ParseRunArgumentsRoundTrip(blenderArgs: seq<string>, propName: string, nImages: nat,
                                   nInstances: nat, rest: seq<string>)
    requires "--" !in blenderArgs
    ensures var argv := blenderArgs + ["--"] + ([propName, Digits(nImages), Digits(nInstances)] + rest);
            ParseRunArguments(argv) ==
              Ok(RunArguments(propName, nImages, nInstances, if rest == [] then None else Some(rest[0])))
  {
    var scriptArgs := [propName, Digits(nImages), Digits(nInstances)] + rest;
    ArgsAfterDashesRoundTrip(blenderArgs, scriptArgs);
    ParseIntDigits(nImages);
    ParseIntDigits(nInstances);
  }

  // ---------------------------------------------------------------------------
  // run()
  // ---------------------------------------------------------------------------

  /** The name the camera of run() is created with. */
  const CameraName: string := "test_camera"

  datatype RunOutcome =
    | Rendered(renderDirectory: string)
    | PropNotFound(propPathRel: string) // importProp raised OSError: the script quits
    | Failed(error: Error)               // an exception escaped createRenderDirectory

  /** run(prop_name, n_images, n_instances, folder_name). The host's side is reduced to
      its inputs: propFiles maps the path of every .blend file that exists to the name
      importProp gives the object it joins from it (a path missing from it makes
      importProp raise OSError); subfolders and currentDate are what the folder scan
      and the clock return. The grid is sized for nInstances but receives one copy
      of the prop. */
  method Run(dirPath: string, renderBasePath: string, propName: string, nImages: int, nInstances: int,
             folderName: Option<string>, propFiles: map<string, string>, subfolders: seq<string>,
             currentDate: string, scene: Scene)
    returns (outcome: RunOutcome, grid: Grid?)
    requires (folderName.None? || folderName.value == "") ==> ScanPlain(subfolders)
    modifies scene
    ensures outcome.PropNotFound? <==> PropPath(dirPath, propName) !in propFiles
    ensures outcome.PropNotFound? ==> outcome.propPathRel == PropPathRel(propName) && grid == null
    ensures !outcome.PropNotFound? ==>
              grid != null && fresh(grid) && grid.Valid() && grid.nSpots == nInstances &&
              grid.propList == [Prop(propFiles[PropPath(dirPath, propName)], 0, Coord(0, 0, 0))]
    ensures outcome.Failed? <==>
              PropPath(dirPath, propName) in propFiles && (folderName.None? || folderName.value == "") &&
              RenderNumber(subfolders).Err?
    ensures outcome.Failed? ==> outcome.error == ValueError
    ensures !outcome.Rendered? ==> unchanged(scene)
    ensures outcome.Rendered? ==>
              scene.resolutionX == 350 && scene.resolutionY == 350 &&
              scene.filepath == (if nImages >= 1 then ImageFilePath(outcome.renderDirectory, nImages - 1)
                                 else old(scene.filepath))
    ensures outcome.Rendered? ==>
              (if folderName.Some? && folderName.value != ""
               then outcome.renderDirectory == renderBasePath + folderName.value
               else RenderNumber(subfolders).Ok? &&
                    outcome.renderDirectory ==
                      renderBasePath + RenderFolderName(RenderNumber(subfolders).value, propName, currentDate)) &&
              scene.camera == CameraName &&
              scene.written == old(scene.written) +
                               Stills(outcome.renderDirectory, CameraName, 350, 350, nImages)
  {
    var propPathRel := PropPathRel(propName);
    var propPath := dirPath + propPathRel;
    if propPath !in propFiles {
      return PropNotFound(propPathRel), null;
    }
    var importedName := propFiles[propPath];
    grid := new Grid(nInstances);
    EnoughSlots(nInstances, grid.nPerSide);
    LatticeAt(grid.nPerSide, 0, 0, 0);
    var populated := grid.Populate([importedName], 1);
    assert grid.propList[0].name in [importedName];
    var directory := CreateRenderDirectory(renderBasePath, propName, folderName, subfolders, currentDate);
    if directory.Err? {
      MaxReadError(Readings(subfolders));
      return Failed(directory.error), grid;
    }
    var rendered := scene.Render(directory.value, CameraName, nImages, DefaultResolution);
    return Rendered(directory.value), grid;
  }
}
