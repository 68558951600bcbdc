/**
 * The producer's command line (`vst_producer <image_path> [--mode=shm|dma]`):
 * the argument loop and the checks made before any window is opened.
 */
module ProducerCli {

  /** What the checks decide; every outcome but `Run` exits with -1. */
  datatype Outcome =
    | Usage
    | MissingPath
    | InvalidMode(mode: string)
    | Run(mode: string, imagePath: string)

  const MODE_FLAG: string := "--mode="
  const DEFAULT_MODE: string := "dma"

  /** The process exit status the outcome leads to before the producer starts. */
  function ExitCode(o: Outcome): (code: int)
    ensures code == -1 <==> !o.Run?
  {
    if o.Run? then 0 else -1
  }

  /** An argument that sets the mode. */
  predicate IsModeArg(arg: string)
  {
    MODE_FLAG <= arg
  }

  /** An argument that can be the image path: it does not start with "--" and is not empty. */
  predicate IsPathArg(arg: string)
  {
    !("--" <= arg) && arg != ""
  }

  /** The value of the last "--mode=" argument, or "dma" when there is none. */
  function LastMode(args: seq<string>): (mode: string)
    ensures (forall k :: 0 <= k < |args| ==> !IsModeArg(args[k])) ==> mode == DEFAULT_MODE
  {
    if args == [] then DEFAULT_MODE
    else if IsModeArg(args[|args| - 1]) then args[|args| - 1][|MODE_FLAG|..]
    else LastMode(args[..|args| - 1])
  }

  /** The first argument that can be the image path, or "" when there is none. */
  function FirstPath(args: seq<string>): (path: string)
    ensures path == "" <==> forall k :: 0 <= k < |args| ==> !IsPathArg(args[k])
    ensures path != "" ==> IsPathArg(path) && path in args
  {
    if args == [] then ""
    else
      var earlier := FirstPath(args[..|args| - 1]);
      if earlier == "" && IsPathArg(args[|args| - 1]) then args[|args| - 1] else earlier
  }

  /** Every "--mode=" argument overrides the earlier ones: the last one decides. */
  lemma {:induction false} LastModeIsLast(args: seq<string>, k: nat)
    requires k < |args| && IsModeArg(args[k])
    requires forall j :: k < j < |args| ==> !IsModeArg(args[j])
    ensures LastMode(args) == args[k][|MODE_FLAG|..]
  {
    if k < |args| - 1 {
      var init := args[..|args| - 1];
      assert forall j :: k < j < |init| ==> init[j] == args[j];
      LastModeIsLast(init, k);
    }
  }

  /** Once a path is taken, later candidates are ignored: the first one decides. */
  lemma {:induction false} FirstPathIsFirst(args: seq<string>, k: nat)
    requires k < |args| && IsPathArg(args[k])
    requires forall j :: 0 <= j < k ==> !IsPathArg(args[j])
    ensures FirstPath(args) == args[k]
  {
    var init := args[..|args| - 1];
    if k < |args| - 1 {
      assert forall j :: 0 <= j < k ==> init[j] == args[j];
      FirstPathIsFirst(init, k);
    } else {
      assert forall j :: 0 <= j < |init| ==> init[j] == args[j];
    }
  }

  /** A bare "--mode=" selects the empty mode, which is then rejected; "--" options of any other kind are skipped. */
  lemma EmptyModeFlag()
    ensures LastMode(["image.png", "--mode="]) == ""
    ensures LastMode(["--mode=shm", "--verbose"]) == "shm"
    ensures FirstPath(["--verbose", "", "a.png", "b.png"]) == "a.png"
  {
    assert IsModeArg("--mode=") && "--mode="[|MODE_FLAG|..] == "";
    assert "--verbose"[2] != MODE_FLAG[2];
    assert IsModeArg("--mode=shm") && "--mode=shm"[|MODE_FLAG|..] == "shm";
    assert "a.png"[0] != '-';
    assert !IsPathArg("--verbose") && !IsPathArg("") && IsPathArg("a.png");
    FirstPathIsFirst(["--verbose", "", "a.png", "b.png"], 2);
  }

  /**
   * The argument loop of the producer's `main` and the checks after it:
   * too few arguments is a usage error, a missing image path is reported
   * before the mode is looked at, and only "shm" and "dma" are accepted.
   */
  method ParseArgs(argv: seq<string>) returns (outcome: Outcome)
    ensures |argv| < 2 ==> outcome == Usage
    ensures |argv| >= 2 && FirstPath(argv[1..]) == "" ==> outcome == MissingPath
    ensures |argv| >= 2 && FirstPath(argv[1..]) != "" && LastMode(argv[1..]) != "shm" && LastMode(argv[1..]) != "dma" ==>
              outcome == InvalidMode(LastMode(argv[1..]))
    ensures outcome.Run? <==>
              |argv| >= 2 && FirstPath(argv[1..]) != "" && (LastMode(argv[1..]) == "shm" || LastMode(argv[1..]) == "dma")
    ensures outcome.Run? ==> outcome == Run(LastMode(argv[1..]), FirstPath(argv[1..]))
  {
    if |argv| < 2 {
      return Usage;
    }
    var imagePath := "";
    var mode := DEFAULT_MODE;
    for i := 1 to |argv|
      invariant mode == LastMode(argv[1..i])
      invariant imagePath == FirstPath(argv[1..i])
    {
      var arg := argv[i];
      assert argv[1..i + 1] == argv[1..i] + [arg];
      assert argv[1..i + 1][..i - 1] == argv[1..i];
      if IsModeArg(arg) {
        mode := arg[|MODE_FLAG|..];
      } else if !("--" <= arg) && imagePath == "" {
        imagePath := arg;
      }
    }
    assert argv[1..|argv|] == argv[1..];
    if imagePath == "" {
      return MissingPath;
    }
    if mode != "shm" && mode != "dma" {
      return InvalidMode(mode);
    }
    return Run(mode, imagePath);
  }
}
