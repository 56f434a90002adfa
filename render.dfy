/** blendgen/render.py: render() points the scene at the camera, sets the output
    resolution and renders n_images stills, each to its own numbered file. */
module Render {
  import opened Results
  import opened Text

  /** render()'s default resolution. */
  const DefaultResolution: seq<int> := [350, 350]

  /** The file name of image i (0-based): "render" + f"{i+1:03}" + ".png". */
  function ImageFileName(i: nat): string {
    "render" + ZeroPad3(i + 1) + ".png"
  }

  /** The path image i is written to. */
  function ImageFilePath(renderDirectory: string, i: nat): string {
    renderDirectory + "/" + ImageFileName(i)
  }

  /** Every image lies directly in the render directory, in a file "render...png". */
  lemma ImageFilePathShape(renderDirectory: string, i: nat)
    ensures StartsWith(ImageFilePath(renderDirectory, i), renderDirectory + "/render")
    ensures EndsWith(ImageFilePath(renderDirectory, i), ".png")
  {
    var prefix, path := renderDirectory + "/render", ImageFilePath(renderDirectory, i);
    assert path == prefix + ZeroPad3(i + 1) + ".png";
    assert path[..|prefix|] == prefix;
    assert path[|path| - 4..] == ".png";
  }

  /** One bpy.ops.render.render(write_still=True): the file it wrote, with the camera
      and the resolution the scene had at that moment. */
  datatype Still = Still(filepath: string, camera: string, width: int, height: int)

  /** The stills a completed render() writes, in order. */
  function Stills(renderDirectory: string, camera: string, width: int, height: int, nImages: int): (r: seq<Still>)
    ensures |r| == if nImages <= 0 then 0 else nImages
  {
    seq(if nImages <= 0 then 0 else nImages,
        i requires 0 <= i => Still(ImageFilePath(renderDirectory, i), camera, width, height))
  }

  /** The part of the host's scene that render() changes: the render camera, the
      render settings, and the images written so far. */
  class Scene {
    var camera: string
    var resolutionX: int
    var resolutionY: int
    var filepath: string
    var written: seq<Still>

    constructor (camera: string, resolutionX: int, resolutionY: int, filepath: string)
      ensures this.camera == camera && this.resolutionX == resolutionX && this.resolutionY == resolutionY
      ensures this.filepath == filepath && written == []
    {
      this.camera := camera;
      this.resolutionX := resolutionX;
      this.resolutionY := resolutionY;
      this.filepath := filepath;
      written := [];
    }

    /** render(render_directory, camera, grid, n_images, resolution). The random
        camera moves are not part of this model. resolution[0] and resolution[1]
        raise IndexError on a shorter list, after the assignments before them. */
    method Render(renderDirectory: string, cameraName: string, nImages: int, resolution: seq<int>)
      returns (outcome: Outcome)
      modifies this
      ensures camera == cameraName
      ensures |resolution| < 2 ==>
                outcome == Fail(IndexError) && written == old(written) && filepath == old(filepath) &&
                resolutionY == old(resolutionY) &&
                resolutionX == (if |resolution| == 1 then resolution[0] else old(resolutionX))
      ensures |resolution| >= 2 ==>
                outcome == Pass && resolutionX == resolution[0] && resolutionY == resolution[1] &&
                written == old(written) + Stills(renderDirectory, cameraName, resolution[0], resolution[1], nImages) &&
                filepath == (if nImages >= 1 then ImageFilePath(renderDirectory, nImages - 1) else old(filepath))
    {
      camera := cameraName;
      if |resolution| == 0 {
        return Fail(IndexError);
      }
      resolutionX := resolution[0];
      if |resolution| == 1 {
        return Fail(IndexError);
      }
      resolutionY := resolution[1];
      ghost var before := written;
      var i := 0;
      while i < nImages
        invariant 0 <= i && (nImages > 0 ==> i <= nImages) && (nImages <= 0 ==> i == 0)
        invariant camera == cameraName && resolutionX == resolution[0] && resolutionY == resolution[1]
        invariant written == before + Stills(renderDirectory, cameraName, resolution[0], resolution[1], i)
        invariant filepath == (if i >= 1 then ImageFilePath(renderDirectory, i - 1) else old(filepath))
        decreases nImages - i
      {
        var filename := "render" + ZeroPad3(i + 1) + ".png";
        var path := renderDirectory + "/" + filename;
        filepath := path;
        written := written + [Still(filepath, camera, resolutionX, resolutionY)];
        i := i + 1;
      }
      return Pass;
    }
  }

  // ---------------------------------------------------------------------------
  // Properties of the file names
  // ---------------------------------------------------------------------------

  /** Different images never share a file. */
  lemma ImageFilePathsDistinct(renderDirectory: string, i: nat, j: nat)
    requires i != j
    ensures ImageFilePath(renderDirectory, i) != ImageFilePath(renderDirectory, j)
  {
    var prefix := renderDirectory + "/" + "render";
    var pi, pj := ZeroPad3(i + 1), ZeroPad3(j + 1);
    var a, b := prefix + pi + ".png", prefix + pj + ".png";
    assert ImageFilePath(renderDirectory, i) == a && ImageFilePath(renderDirectory, j) == b;
    if a == b {
      assert |pi| == |pj|;
      assert pi == a[|prefix|..|prefix| + |pi|] == b[|prefix|..|prefix| + |pj|] == pj;
      ZeroPad3Injective(i + 1, j + 1);
    }
  }

  /** Up to image 999 every file name has the same length, thirteen characters. */
  lemma ImageFileNameLength(i: nat)
    requires i < 999
    ensures |ImageFileName(i)| == 13
  {
    DigitsLength3(i + 1);
  }

  /** Up to image 999, sorting the paths as strings puts them in render order. */
  lemma ImageFilePathsSortInRenderOrder(renderDirectory: string, i: nat, j: nat)
    requires i < 999 && j < 999
    ensures LexLess(ImageFilePath(renderDirectory, i), ImageFilePath(renderDirectory, j)) <==> i < j
  {
    var prefix := renderDirectory + "/" + "render";
    var a, b := ZeroPad3(i + 1) + ".png", ZeroPad3(j + 1) + ".png";
    assert ImageFilePath(renderDirectory, i) == prefix + a;
    assert ImageFilePath(renderDirectory, j) == prefix + b;
    LexLessCommonPrefix(prefix, a, b);
    ZeroPad3Order(i + 1, j + 1, ".png");
  }
}
