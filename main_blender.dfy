/** main_blender.py: the entry point Blender runs for blendgen.generate. It splits
    off the script's four arguments, and load_prop_paths maps every prop name in a
    folder to the path of its .blend file. */
module MainBlender {
  import opened Results
  import opened Text
  import opened Argv

  // ---------------------------------------------------------------------------
  // load_prop_paths
  // ---------------------------------------------------------------------------

  /** os.path.join(a, b) on POSIX: an absolute b replaces a; otherwise b is appended,
      with a "/" in between unless a is empty or already ends with one. */
  function PathJoin(a: string, b: string): (r: string)
    ensures StartsWith(b, "/") ==> r == b
    ensures !StartsWith(b, "/") ==> StartsWith(r, a) && EndsWith(r, b)
    ensures !StartsWith(b, "/") ==> |r| == |a| + |b| || (|r| == |a| + |b| + 1 && r[|a|] == '/')
  {
    if StartsWith(b, "/") then b
    else
      var r := if a == [] || EndsWith(a, "/") then a + b else a + "/" + b;
      assert r[..|a|] == a && r[|r| - |b|..] == b;
      r
  }

  /** filename[:-6] for a name ending in ".blend": the prop name. */
  function Stem(filename: string): (stem: string)
    requires EndsWith(filename, ".blend")
    ensures stem + ".blend" == filename
  {
    filename[..|filename| - 6]
  }

  /** The dictionary load_prop_paths has built after the given listing entries. */
  function PropPaths(propDirPath: string, filenames: seq<string>): (propPaths: map<string, string>)
    ensures |propPaths| <= |filenames|
  {
    if filenames == [] then map[]
    else
      var m := PropPaths(propDirPath, filenames[..|filenames| - 1]);
      var filename := filenames[|filenames| - 1];
      if EndsWith(filename, ".blend") then m[Stem(filename) := PathJoin(propDirPath, filename)]
      else m
  }

  /** load_prop_paths(prop_dir_path) with the directory listing as an input. */
  method LoadPropPaths(propDirPath: string, filenames: seq<string>) returns (propPaths: map<string, string>)
    ensures propPaths == PropPaths(propDirPath, filenames)
  {
    propPaths := map[];
    for i := 0 to |filenames|
      invariant propPaths == PropPaths(propDirPath, filenames[..i])
    {
      var filename := filenames[i];
      assert filenames[..i + 1][..i] == filenames[..i];
      if EndsWith(filename, ".blend") {
        var filepath := PathJoin(propDirPath, filename);
        var propName := filename[..|filename| - 6];
        propPaths := propPaths[propName := filepath];
      }
    }
    assert filenames[..|filenames|] == filenames;
  }

  /** Every prop name is a listed .blend file minus its extension, every listed .blend
      file has its entry, and the entry is the folder joined with the file's name. */
  lemma {:induction false} PropPathsEntries(propDirPath: string, filenames: seq<string>, propName: string)
    ensures propName in PropPaths(propDirPath, filenames) <==> propName + ".blend" in filenames
    ensures propName in PropPaths(propDirPath, filenames) ==>
              PropPaths(propDirPath, filenames)[propName] == PathJoin(propDirPath, propName + ".blend")
  {
    if filenames != [] {
      var init, filename := filenames[..|filenames| - 1], filenames[|filenames| - 1];
      assert filenames == init + [filename];
      PropPathsEntries(propDirPath, init, propName);
      if EndsWith(filename, ".blend") && Stem(filename) == propName {
        assert filename == propName + ".blend";
      } else {
        assert propName + ".blend" != filename by {
          var f := propName + ".blend";
          assert f[|f| - 6..] == ".blend";
          assert Stem(f) == propName;
        }
      }
    }
  }

  /** Only names ending in ".blend" make entries: a listing without any gives an
      empty dictionary. */
  lemma {:induction false} NoBlendFilesNoEntries(propDirPath: string, filenames: seq<string>)
    requires forall k :: 0 <= k < |filenames| ==> !EndsWith(filenames[k], ".blend")
    ensures PropPaths(propDirPath, filenames) == map[]
  {
    if filenames != [] {
      NoBlendFilesNoEntries(propDirPath, filenames[..|filenames| - 1]);
    }
  }

  /** Two different .blend files never share a prop name, so the dictionary has one
      entry per .blend file of the listing. */
  lemma StemInjective(a: string, b: string)
    requires EndsWith(a, ".blend") && EndsWith(b, ".blend") && a != b
    ensures Stem(a) != Stem(b)
  {
  }

  // ---------------------------------------------------------------------------
  // main
  // ---------------------------------------------------------------------------

  /** The arguments blendgen.generate is called with. */
  datatype MainArguments = MainArguments(propPath: string, savePath: string, nImages: int, nInstances: int)

  /** main(): the four arguments after "--", the last two through int(). Python reads
      them left to right, so the first missing or malformed one decides the error. */
  function ParseMainArguments(argv: seq<string>): (r: Result<MainArguments>)
    ensures ArgsAfterDashes(argv).Err? ==> r == Err(ValueError)
    ensures ArgsAfterDashes(argv).Ok? ==>
              var args := ArgsAfterDashes(argv).value;
              if |args| < 3 then r == Err(IndexError)
              else if ParseInt(args[2]).Err? then r == Err(ValueError)
              else if |args| < 4 then r == Err(IndexError)
              else if ParseInt(args[3]).Err? then r == Err(ValueError)
              else r.Ok?
    ensures r.Ok? ==>
              var args := ArgsAfterDashes(argv).value;
              |args| >= 4 && r.value.propPath == args[0] && r.value.savePath == args[1] &&
              ParseInt(args[2]) == Ok(r.value.nImages) && ParseInt(args[3]) == Ok(r.value.nInstances)
  {
    match ArgsAfterDashes(argv)
    case Err(e) => Err(e)
    case Ok(args) =>
      if |args| < 3 then Err(IndexError)
      else
        match ParseInt(args[2])
        case Err(e) => Err(e)
        case Ok(nImages) =>
          if |args| < 4 then Err(IndexError)
          else
            match ParseInt(args[3])
            case Err(e) => Err(e)
            case Ok(nInstances) => Ok(MainArguments(args[0], args[1], nImages, nInstances))
  }

  /** Four script arguments, the counts written as decimal numerals, are read back as
      exactly those values; anything after them is ignored. */
  lemma ParseMainArgumentsRoundTrip(blenderArgs: seq<string>, propPath: string, savePath: string,
                                    nImages: nat, nInstances: nat, rest: seq<string>)
    requires "--" !in blenderArgs
    ensures var argv := blenderArgs + ["--"] + ([propPath, savePath, Digits(nImages), Digits(nInstances)] + rest);
            ParseMainArguments(argv) == Ok(MainArguments(propPath, savePath, nImages, nInstances))
  {
    ArgsAfterDashesRoundTrip(blenderArgs, [propPath, savePath, Digits(nImages), Digits(nInstances)] + rest);
    ParseIntDigits(nImages);
    ParseIntDigits(nInstances);
  }
}
