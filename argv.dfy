/** The command-line convention shared by the Blender entry points: Blender passes
    its own options first, and the script's arguments follow the first "--". */
module Argv {
  import opened Results

  /** list.index(x): the position of the first occurrence of x. */
  function FirstIndex(s: seq<string>, x: string): (i: nat)
    requires x in s
    ensures i < |s| && s[i] == x
    ensures x !in s[..i]
  {
    if s[0] == x then 0
    else
      assert s == [s[0]] + s[1..];
      var j := FirstIndex(s[1..], x);
      assert s[..j + 1] == [s[0]] + s[1..][..j];
      j + 1
  }

  /** argv[argv.index("--") + 1:]: the arguments after the first "--", or the
      ValueError that index() raises when there is none. */
  function ArgsAfterDashes(argv: seq<string>): (r: Result<seq<string>>)
    ensures r.Err? <==> "--" !in argv
    ensures r.Err? ==> r.error == ValueError
    ensures r.Ok? ==> exists k :: 0 <= k < |argv| && argv[k] == "--" && "--" !in argv[..k] &&
                                 r.value == argv[k + 1..]
  {
    if "--" in argv then
      var k := FirstIndex(argv, "--");
      Ok(argv[k + 1..])
    else Err(ValueError)
  }

  /** Splitting a command line built as Blender's options, "--", then the script's
      arguments gives back exactly the script's arguments, whatever they contain
      (a later "--" included). */
  lemma ArgsAfterDashesRoundTrip(blenderArgs: seq<string>, scriptArgs: seq<string>)
    requires "--" !in blenderArgs
    ensures ArgsAfterDashes(blenderArgs + ["--"] + scriptArgs) == Ok(scriptArgs)
  {
    var argv := blenderArgs + ["--"] + scriptArgs;
    assert argv[|blenderArgs|] == "--";
    var k := FirstIndex(argv, "--");
    assert argv[..|blenderArgs|] == blenderArgs;
    assert argv[k + 1..] == scriptArgs;
  }
}
