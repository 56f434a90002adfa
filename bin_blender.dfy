/** bin/blender.py: the older single-image script. It imports the prop named on the
    command line and renders one test image into a fresh renderNNN_<date> folder,
    numbered by the same scan as createRenderDirectory. */
module BinBlender {
  import opened Results
  import opened Text
  import opened Argv
  import opened Utils
  import opened Render

  /** render()'s default resolution in this script. */
  const TestResolution: seq<int> := [512, 512]

  /** The scene object render() makes the render camera. */
  const TestCameraName: string := "Camera"

  /** The folder name for number n: "render" + f"{n:03d}" + "_" + date (no prop name). */
  function TestFolderName(n: nat, currentDate: string): string {
    "render" + ZeroPad3(n) + "_" + currentDate
  }

  /** The image render() writes inside the folder. */
  function TestImagePath(renderPath: string): (path: string)
    ensures StartsWith(path, renderPath) && EndsWith(path, "/test.png")
  {
    var path := renderPath + "/" + "test.png";
    assert path[|path| - 9..] == "/test.png";
    path
  }

  /** render(resolution): make the scene object "Camera" the render camera, set the
      resolution, scan the render folders for the next number, make renderNNN_<date>
      and render one still to test.png in it. Returns the folder's path.
      sceneObjects holds the names in bpy.data.objects: without a "Camera" the lookup
      raises KeyError before anything changes. A resolution list shorter than two
      raises IndexError after the assignments before the missing item; a "render"
      folder whose number cannot be read raises ValueError before anything is
      written. */
  method RenderTest(scene: Scene, sceneObjects: set<string>, renderBasePath: string, subfolders: seq<string>,
                    currentDate: string, resolution: seq<int>)
    returns (r: Result<string>)
    requires ScanPlain(subfolders)
    modifies scene
    ensures TestCameraName !in sceneObjects ==> r == Err(KeyError) && unchanged(scene)
    ensures TestCameraName in sceneObjects ==> scene.camera == TestCameraName
    ensures TestCameraName in sceneObjects && |resolution| < 2 ==>
              r == Err(IndexError) && scene.written == old(scene.written) && scene.filepath == old(scene.filepath) &&
              scene.resolutionY == old(scene.resolutionY) &&
              scene.resolutionX == (if |resolution| == 1 then resolution[0] else old(scene.resolutionX))
    ensures TestCameraName in sceneObjects && |resolution| >= 2 ==>
              scene.resolutionX == resolution[0] && scene.resolutionY == resolution[1] &&
              match RenderNumber(subfolders)
              case Err(e) =>
                r == Err(e) && scene.written == old(scene.written) && scene.filepath == old(scene.filepath)
              case Ok(n) =>
                r == Ok(renderBasePath + TestFolderName(n, currentDate)) &&
                scene.filepath == TestImagePath(r.value) &&
                scene.written == old(scene.written) +
                                 [Still(scene.filepath, TestCameraName, resolution[0], resolution[1])]
  {
    if TestCameraName !in sceneObjects {
      return Err(KeyError);
    }
    scene.camera := TestCameraName;
    if |resolution| == 0 {
      return Err(IndexError);
    }
    scene.resolutionX := resolution[0];
    if |resolution| == 1 {
      return Err(IndexError);
    }
    scene.resolutionY := resolution[1];
    var renderNum := NextRenderNumber(subfolders);
    if renderNum.Err? {
      return Err(renderNum.error);
    }
    var renderPath := renderBasePath + "render" + ZeroPad3(renderNum.value) + "_" + currentDate;
    assert renderPath == renderBasePath + TestFolderName(renderNum.value, currentDate);
    var filepath := renderPath + "/" + "test.png";
    scene.filepath := filepath;
    scene.written := scene.written + [Still(scene.filepath, scene.camera, scene.resolutionX, scene.resolutionY)];
    return Ok(renderPath);
  }

  /** After a run has made its folder, the next run's scan proposes the following
      number, so runs never share a folder (up to number 999). */
  lemma SuccessiveRunsAdvance(folders: seq<string>, n: nat, currentDate: string)
    requires RenderNumber(folders) == Ok(n) && n <= 999
    ensures RenderNumber(folders + [TestFolderName(n, currentDate)]) == Ok(n + 1)
  {
    NumberAfterPositive(MaxRead(Readings(folders)));
    TestFolderNameReadsBack(n, currentDate);
    ScanAfterAppend(folders, TestFolderName(n, currentDate), n);
  }

  /** The folder made for number n reads back as n, for 1 <= n <= 999. */
  lemma TestFolderNameReadsBack(n: nat, currentDate: string)
    requires 1 <= n <= 999
    ensures ReadFolder(TestFolderName(n, currentDate)) == Number(n)
  {
    assert TestFolderName(n, currentDate) == "render" + ZeroPad3(n) + ("_" + currentDate);
    NumberedNameReadsBack(n, "_" + currentDate);
  }

  /** The __main__ block's prop path: the project folder followed by the first
      argument after "--" (IndexError when there is none). */
  function PropPath(argv: seq<string>, dirPath: string): (r: Result<string>)
    ensures ArgsAfterDashes(argv).Err? ==> r == Err(ValueError)
    ensures ArgsAfterDashes(argv).Ok? ==>
              var args := ArgsAfterDashes(argv).value;
              if args == [] then r == Err(IndexError)
              else r == Ok(dirPath + args[0])
  {
    match ArgsAfterDashes(argv)
    case Err(e) => Err(e)
    case Ok(args) => if args == [] then Err(IndexError) else Ok(dirPath + args[0])
  }

  /** The prop named right after "--" is the one loaded, whatever follows it. */
  lemma PropPathRoundTrip(blenderArgs: seq<string>, propPathRel: string, rest: seq<string>, dirPath: string)
    requires "--" !in blenderArgs
    ensures PropPath(blenderArgs + ["--"] + ([propPathRel] + rest), dirPath) == Ok(dirPath + propPathRel)
  {
    ArgsAfterDashesRoundTrip(blenderArgs, [propPathRel] + rest);
  }

  /** The whole script once the prop is imported: the prop path from the command line,
      then render() with its default resolution. */
  method Script(argv: seq<string>, dirPath: string, scene: Scene, sceneObjects: set<string>,
                renderBasePath: string, subfolders: seq<string>, currentDate: string)
    returns (propPath: Result<string>, renderPath: Result<string>)
    requires ScanPlain(subfolders)
    modifies scene
    ensures propPath == PropPath(argv, dirPath)
    ensures propPath.Err? ==> renderPath == propPath && unchanged(scene)
    ensures propPath.Ok? && TestCameraName !in sceneObjects ==> renderPath == Err(KeyError) && unchanged(scene)
    ensures propPath.Ok? && TestCameraName in sceneObjects ==>
              scene.camera == TestCameraName && scene.resolutionX == 512 && scene.resolutionY == 512 &&
              match RenderNumber(subfolders)
              case Err(e) =>
                renderPath == Err(e) && scene.written == old(scene.written) && scene.filepath == old(scene.filepath)
              case Ok(n) =>
                renderPath == Ok(renderBasePath + TestFolderName(n, currentDate)) &&
                scene.filepath == TestImagePath(renderPath.value) &&
                scene.written == old(scene.written) + [Still(scene.filepath, TestCameraName, 512, 512)]
  {
    propPath := PropPath(argv, dirPath);
    if propPath.Err? {
      return propPath, propPath;
    }
    renderPath := RenderTest(scene, sceneObjects, renderBasePath, subfolders, currentDate, TestResolution);
  }
}
