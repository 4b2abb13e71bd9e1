/**
 * `validateFiles` and `processFiles`: check every path, then plan the two
 * `exiftool` runs. The file system and the tool are not run; they are given as
 * oracles, and processing yields the commands it would issue with its outcome.
 */
module Processing {
  import opened Wrappers
  import opened Paths
  import opened Gear
  import opened ExifTool

  /**
   * What `os.Stat` reports for a path. The source rejects a path only when the
   * error is "does not exist"; any other stat error lets the path through.
   */
  datatype StatResult = Exists | NotExist | OtherError

  datatype ValidationError = FileNotFound(path: string) | UnsupportedFileType(path: string)

  /** A path that passes both checks of `validateFiles`. */
  predicate FileOk(stat: string -> StatResult, file: string) {
    stat(file) != NotExist && IsJPEG(file)
  }

  /** The checks on one path, existence first. */
  function CheckFile(stat: string -> StatResult, file: string): (r: Outcome<ValidationError>)
    ensures r.Pass? <==> FileOk(stat, file)
  {
    if stat(file) == NotExist then Fail(FileNotFound(file))
    else if !IsJPEG(file) then Fail(UnsupportedFileType(file))
    else Pass
  }

  /** `validateFiles` as a specification: the paths are checked in list order and the first failure is reported. */
  function Validate(stat: string -> StatResult, files: seq<string>): (r: Outcome<ValidationError>)
    ensures r.Pass? <==> forall i :: 0 <= i < |files| ==> FileOk(stat, files[i])
    decreases |files|
  {
    if files == [] then Pass
    else match CheckFile(stat, files[0])
      case Pass => Validate(stat, files[1..])
      case Fail(e) => Fail(e)
  }

  /** The error reported names the first path in list order that fails a check, and says which check. */
  lemma {:induction false} ValidateReportsFirstFailure(stat: string -> StatResult, files: seq<string>, k: nat)
    requires k < |files| && !FileOk(stat, files[k])
    requires forall j :: 0 <= j < k ==> FileOk(stat, files[j])
    ensures Validate(stat, files) == CheckFile(stat, files[k])
    ensures Validate(stat, files) == Fail(
      if stat(files[k]) == NotExist then FileNotFound(files[k]) else UnsupportedFileType(files[k]))
    decreases k
  {
    if k > 0 {
      assert FileOk(stat, files[0]);
      ValidateReportsFirstFailure(stat, files[1..], k - 1);
    }
  }

  /** A missing path is reported as missing even when its name is not a JPEG name either. */
  lemma MissingReportedBeforeType(stat: string -> StatResult, file: string)
    requires stat(file) == NotExist && !IsJPEG(file)
    ensures Validate(stat, [file]) == Fail(FileNotFound(file))
  {
    ValidateReportsFirstFailure(stat, [file], 0);
  }

  /** `validateFiles`: a loop over the paths that returns at the first failing check. */
  method ValidateFiles(stat: string -> StatResult, files: seq<string>) returns (r: Outcome<ValidationError>)
    ensures r == Validate(stat, files)
  {
    var i := 0;
    while i < |files|
      invariant 0 <= i <= |files|
      invariant Validate(stat, files[i..]) == Validate(stat, files)
    {
      if stat(files[i]) == NotExist {
        return Fail(FileNotFound(files[i]));
      }
      if !IsJPEG(files[i]) {
        return Fail(UnsupportedFileType(files[i]));
      }
      assert files[i..][1..] == files[i + 1..];
      i := i + 1;
    }
    return Pass;
  }

  datatype ProcessError = ValidationFailed(cause: ValidationError) | StripFailed | ApplyFailed

  /** The `exiftool` runs issued, in order, and the result of `processFiles`. */
  datatype Run = Run(issued: seq<seq<string>>, outcome: Outcome<ProcessError>)

  /**
   * `processFiles`: validate, then strip, then apply. `exiftool` tells whether
   * a run with the given arguments succeeds. Nothing is issued when validation
   * fails; the strip run always comes first; apply is issued only after a
   * successful strip; the outcome is success exactly when both runs were
   * issued and both succeeded.
   */
  function ProcessFiles(
    files: seq<string>, camera: Camera, lens: Lens, film: FilmStock,
    stat: string -> StatResult, exiftool: seq<string> -> bool): (run: Run)
    ensures Validate(stat, files).Fail? ==>
      run == Run([], Fail(ValidationFailed(Validate(stat, files).error)))
    ensures Validate(stat, files).Pass? ==> |run.issued| >= 1 && run.issued[0] == StripArgs(files)
    ensures Validate(stat, files).Pass? && !exiftool(StripArgs(files)) ==>
      run == Run([StripArgs(files)], Fail(StripFailed))
    ensures |run.issued| == 2 <==> Validate(stat, files).Pass? && exiftool(StripArgs(files))
    ensures |run.issued| == 2 ==> run.issued[1] == ApplyArgs(camera, lens, film, files)
    ensures run.outcome.Pass? <==>
      |run.issued| == 2 && forall i :: 0 <= i < |run.issued| ==> exiftool(run.issued[i])
    ensures run.outcome == Fail(ApplyFailed) ==> |run.issued| == 2 && !exiftool(run.issued[1])
    ensures |run.issued| == 2 && !exiftool(run.issued[1]) ==> run.outcome == Fail(ApplyFailed)
  {
    match Validate(stat, files)
    case Fail(e) => Run([], Fail(ValidationFailed(e)))
    case Pass =>
      var strip := StripArgs(files);
      if !exiftool(strip) then Run([strip], Fail(StripFailed))
      else
        var apply := ApplyArgs(camera, lens, film, files);
        Run([strip, apply], if exiftool(apply) then Pass else Fail(ApplyFailed))
  }

  /** The strip run and the apply run never coincide, so the order of `issued` is observable. */
  lemma StripDiffersFromApply(camera: Camera, lens: Lens, film: FilmStock, files: seq<string>)
    ensures StripArgs(files) != ApplyArgs(camera, lens, film, files)
  {
  }
}
