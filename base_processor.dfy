/**
 * The processor contract shared by every PDF operation: the per-file
 * result record, input validation, output-directory and base-name helpers,
 * and the batch executor (`process_multiple`) that turns every fault of a
 * single file into an error record and never stops early.
 */
module BaseProcessor {
  import opened Wrappers
  import opened PyText
  import opened PyPath

  datatype Status = Success | Error

  /**
   * The dict a processor returns for one file. `pageCount` and `outputDir`
   * stand for the keys only some operations add ('page_count', 'output_dir').
   */
  datatype FileResult = FileResult(
    status: Status,
    file: string,
    message: string,
    outputFiles: seq<string>,
    pageCount: Option<int>,
    outputDir: Option<string>)

  /** The record every `except` branch of a processor builds. */
  function ErrorResult(file: string, message: string): FileResult {
    FileResult(Error, file, message, [], None, None)
  }

  /** A call that may raise: it returns a value, or raises an exception whose `str` is `text`. */
  datatype Attempt<T> = Returned(value: T) | Raised(text: string)

  /** What processing one file does outside the process, in order. */
  datatype Effect =
    | MakeDirs(dir: string)                                 // os.makedirs(dir, exist_ok=True)
    | Write(path: string)                                   // a library call that saves a file
    | Invoke(argv: seq<string>, env: map<string, string>)   // subprocess.run(argv, env=env)

  /** One call of `process_single`: the record it returns and the effects it had. */
  datatype Run = Run(result: FileResult, effects: seq<Effect>)

  /** The file system as the processors see it: `os.path.exists`, and the fault `os.makedirs` raises, if any. */
  datatype FileSystem = FileSystem(pathExists: string -> bool, makedirsFault: string -> Option<string>)

  const NotFoundPrefix := "PDF文件不存在: "
  const NotPdfPrefix := "不是有效的PDF文件: "

  /** `str` of the FileNotFoundError that `os.makedirs('')` raises. */
  const EmptyDirFault := "[Errno 2] No such file or directory: ''"

  // ---------------------------------------------------------------- validation

  /**
   * `validate_pdf`: the exception text it raises, or None when it returns True.
   * Existence is checked first, then the case-insensitive ".pdf" suffix.
   */
  function ValidationFault(path: string, fs: FileSystem): (fault: Option<string>)
    ensures fault == None <==> fs.pathExists(path) && EndsWith(Lower(path), ".pdf")
    ensures !fs.pathExists(path) ==> fault == Some(NotFoundPrefix + path)
    ensures fs.pathExists(path) && !EndsWith(Lower(path), ".pdf") ==> fault == Some(NotPdfPrefix + path)
  {
    if !fs.pathExists(path) then Some(NotFoundPrefix + path)
    else if !EndsWith(Lower(path), ".pdf") then Some(NotPdfPrefix + path)
    else None
  }

  /** Any existing path whose last four characters spell ".pdf" in any letter case passes validation. */
  lemma {:induction false} ValidationIgnoresCase(n: string, ext: string, fs: FileSystem)
    requires |ext| == 4 && Lower(ext) == ".pdf"
    requires fs.pathExists(n + ext)
    ensures ValidationFault(n + ext, fs) == None
  {
    var p := n + ext;
    assert Lower(p)[|p| - 4..] == Lower(ext) by {
      forall k | 0 <= k < 4 ensures Lower(p)[|p| - 4 + k] == Lower(ext)[k] {
        assert p[|p| - 4 + k] == ext[k];
      }
    }
  }

  // ---------------------------------------------------------- output directory

  /** `os.makedirs(dir, exist_ok=True)`: the empty name always fails; otherwise the file system decides. */
  function MakedirsFault(fs: FileSystem, dir: string): (fault: Option<string>)
    ensures dir == "" ==> fault == Some(EmptyDirFault)
  {
    if dir == "" then Some(EmptyDirFault) else fs.makedirsFault(dir)
  }

  /**
   * `get_output_dir` as written: the given directory, or `os.path.dirname(pdf_path)`;
   * it is created, and the call raises when creating it fails.
   */
  function OutputDirAsWritten(path: string, outputDir: Option<string>, fs: FileSystem): (r: (Attempt<string>, seq<Effect>))
    ensures var dir := outputDir.GetOr(Dirname(path));
      r.1 == [MakeDirs(dir)]
      && (r.0.Returned? ==> r.0.value == dir)
      && (r.0.Raised? <==> MakedirsFault(fs, dir).Some?)
      && (r.0.Raised? ==> r.0 == Raised(MakedirsFault(fs, dir).value))
  {
    var dir := outputDir.GetOr(Dirname(path));
    match MakedirsFault(fs, dir)
    case Some(f) => (Raised(f), [MakeDirs(dir)])
    case None => (Returned(dir), [MakeDirs(dir)])
  }

  /**
   * Finding: a bare relative file name has the empty string as its dirname, and
   * `os.makedirs('')` raises, so such an input fails whatever the file system holds.
   */
  lemma BareNameFailsAsWritten(f: string, fs: FileSystem)
    requires '/' !in f
    ensures OutputDirAsWritten(f, None, fs).0 == Raised(EmptyDirFault)
  {
    BareNameDirname(f);
  }

  /** The directory holding `path`: its dirname, or "." for a bare name in the current directory. */
  function DefaultOutputDir(path: string): (dir: string)
    ensures dir != ""
  {
    var d := Dirname(path);
    if d == "" then "." else d
  }

  /** The default output directory is the one the input lives in, and it is never the empty name. */
  lemma DefaultOutputDirContainsInput(d: string, f: string)
    requires d != [] && d[|d| - 1] != '/'
    requires IsPlainName(f)
    ensures DefaultOutputDir(Join(d, f)) == d
    ensures DefaultOutputDir(f) == "." && Join(DefaultOutputDir(f), f) == "./" + f
  {
    JoinTakenApart(d, f);
    BareNameDirname(f);
    assert !StartsWith(f, "/") by {
      assert f[0] != '/';
    }
  }

  /**
   * `get_output_dir` with the default corrected to the directory holding the
   * input; this is the one the processors use.
   */
  function OutputDir(path: string, outputDir: Option<string>, fs: FileSystem): (r: (Attempt<string>, seq<Effect>))
    ensures var dir := outputDir.GetOr(DefaultOutputDir(path));
      r.1 == [MakeDirs(dir)]
      && (r.0.Returned? ==> r.0.value == dir)
      && (r.0.Raised? <==> MakedirsFault(fs, dir).Some?)
      && (r.0.Raised? ==> r.0 == Raised(MakedirsFault(fs, dir).value))
  {
    var dir := outputDir.GetOr(DefaultOutputDir(path));
    match MakedirsFault(fs, dir)
    case Some(f) => (Raised(f), [MakeDirs(dir)])
    case None => (Returned(dir), [MakeDirs(dir)])
  }

  /**
   * Outside the bare-name case the corrected default changes nothing: whenever
   * an output directory is given or the input names a directory, the processors
   * see exactly what `get_output_dir` as written returns and does.
   */
  lemma OutputDirAgreesAsWritten(path: string, outputDir: Option<string>, fs: FileSystem)
    requires outputDir.Some? || Dirname(path) != ""
    ensures OutputDir(path, outputDir, fs) == OutputDirAsWritten(path, outputDir, fs)
  {
  }

  // ----------------------------------------------------------------- base name

  /** `get_base_filename`: the input's file name without its final suffix. */
  function BaseFilename(path: string): string {
    Stem(path)
  }

  /** The base name of `<dir>/<n>.<ext>` is `n`, so `report.PDF` and `report.pdf` both give `report`. */
  lemma BaseFilenameOfPdf(d: string, n: string, ext: string)
    requires d != [] && d[|d| - 1] != '/'
    requires IsPlainName(n + "." + ext) && n != [] && ext != [] && '.' !in ext
    ensures BaseFilename(Join(d, n + "." + ext)) == n
  {
    JoinTakenApart(d, n + "." + ext);
    StemDropsExtension(Join(d, n + "." + ext), n, ext);
  }

  // ------------------------------------------------------- writing the outputs

  /** The effect of saving each of `paths`, in order. */
  function Writes(paths: seq<string>): (effects: seq<Effect>)
    ensures |effects| == |paths| && forall i :: 0 <= i < |paths| ==> effects[i] == Write(paths[i])
  {
    seq(|paths|, i requires 0 <= i < |paths| => Write(paths[i]))
  }

  /**
   * The first of `n` saves, numbered from 0, that raises (`fault` gives the
   * exception text of save k, if it raises), or `n` when none does.
   */
  function FirstFault(fault: nat -> Option<string>, n: nat): (k: nat)
    ensures k <= n
    ensures k < n ==> fault(k).Some?
    ensures forall j :: 0 <= j < k ==> fault(j).None?
  {
    if n == 0 then 0
    else
      var k := FirstFault(fault, n - 1);
      if k < n - 1 then k else if fault(n - 1).Some? then n - 1 else n
  }

  /**
   * The end of a processor that saves `names` one by one: the first save that
   * raises turns the run into an error (the files saved so far are not
   * reported); when all succeed, the run ends with `success`.
   */
  function SavingRun(path: string, names: seq<string>, fault: nat -> Option<string>, success: FileResult, effects: seq<Effect>): Run {
    var k := FirstFault(fault, |names|);
    if k < |names| then Run(ErrorResult(path, fault(k).value), effects + Writes(names[..k + 1]))
    else Run(success, effects + Writes(names))
  }

  /** The first save that raises decides the run: its text is the error, and the saves up to it are all that was written. */
  lemma SavingRunFault(path: string, names: seq<string>, fault: nat -> Option<string>, success: FileResult, effects: seq<Effect>, k: nat)
    requires k < |names| && fault(k).Some?
    requires forall j :: 0 <= j < k ==> fault(j).None?
    ensures SavingRun(path, names, fault, success, effects)
         == Run(ErrorResult(path, fault(k).value), effects + Writes(names[..k + 1]))
  {
  }

  /** The saving ends in `success` exactly when no save raises. */
  lemma SavingRunSucceeds(path: string, names: seq<string>, fault: nat -> Option<string>, success: FileResult, effects: seq<Effect>)
    requires success.status == Success
    ensures SavingRun(path, names, fault, success, effects).result.status == Success
        <==> forall j :: 0 <= j < |names| ==> fault(j).None?
    ensures (forall j :: 0 <= j < |names| ==> fault(j).None?) ==>
      SavingRun(path, names, fault, success, effects) == Run(success, effects + Writes(names))
  {
    var k := FirstFault(fault, |names|);
    if k < |names| {
      assert fault(k).Some?;
    }
  }

  // ------------------------------------------------------------ batch executor

  /** One step of the loop in `process_multiple`: what was returned, or the record built from the fault. */
  function Settle(path: string, attempt: Attempt<FileResult>): (r: FileResult)
    ensures attempt.Raised? ==> r.status == Error && r.file == path && r.message == attempt.text && r.outputFiles == []
    ensures attempt.Returned? ==> r == attempt.value
  {
    match attempt
    case Returned(result) => result
    case Raised(text) => ErrorResult(path, text)
  }

  /** The results `process_multiple` accumulates for `paths`, as a function of the per-file step. */
  function Batch(step: (string, Option<string>) -> Attempt<FileResult>, paths: seq<string>, outputDir: Option<string>): (results: seq<FileResult>)
    ensures |results| == |paths|
    decreases |paths|
  {
    if paths == [] then []
    else
      var last := paths[|paths| - 1];
      Batch(step, paths[..|paths| - 1], outputDir) + [Settle(last, step(last, outputDir))]
  }

  /**
   * `process_multiple`: every input is processed, in order, and a raised fault
   * becomes that file's error record instead of ending the batch.
   */
  method ProcessMultiple(step: (string, Option<string>) -> Attempt<FileResult>, paths: seq<string>, outputDir: Option<string>)
    returns (results: seq<FileResult>)
    ensures results == Batch(step, paths, outputDir)
  {
    results := [];
    for i := 0 to |paths|
      invariant results == Batch(step, paths[..i], outputDir)
    {
      var result := Settle(paths[i], step(paths[i], outputDir));
      assert paths[..i + 1][..i] == paths[..i];
      results := results + [result];
    }
    assert paths[..|paths|] == paths;
  }

  /** One result per input, and result k is what processing input k gave, whatever happened to the others. */
  lemma {:induction false} BatchPointwise(step: (string, Option<string>) -> Attempt<FileResult>, paths: seq<string>, outputDir: Option<string>)
    ensures forall k :: 0 <= k < |paths| ==>
      Batch(step, paths, outputDir)[k] == Settle(paths[k], step(paths[k], outputDir))
    decreases |paths|
  {
    if paths != [] {
      var init := paths[..|paths| - 1];
      BatchPointwise(step, init, outputDir);
      assert forall k :: 0 <= k < |init| ==> init[k] == paths[k];
    }
  }

  /** A raising file gets an error record naming it and carrying the fault text. */
  lemma RaisedFileReported(step: (string, Option<string>) -> Attempt<FileResult>, paths: seq<string>, outputDir: Option<string>, k: nat)
    requires k < |paths| && step(paths[k], outputDir).Raised?
    ensures var r := Batch(step, paths, outputDir)[k];
      r.status == Error && r.file == paths[k] && r.message == step(paths[k], outputDir).text && r.outputFiles == []
  {
    BatchPointwise(step, paths, outputDir);
  }

  /**
   * No short-circuit: the results of a batch are the results of its first part
   * followed by those of the rest, so nothing a file does affects the files after it.
   */
  lemma {:induction false} BatchSplits(step: (string, Option<string>) -> Attempt<FileResult>, a: seq<string>, b: seq<string>, outputDir: Option<string>)
    ensures Batch(step, a + b, outputDir) == Batch(step, a, outputDir) + Batch(step, b, outputDir)
    decreases |b|
  {
    if b == [] {
      assert a + b == a;
    } else {
      var b' := b[..|b| - 1];
      assert (a + b)[..|a + b| - 1] == a + b';
      BatchSplits(step, a, b', outputDir);
    }
  }

  /**
   * Isolation: two steps that agree on input k give the same result k, however
   * they treat the other inputs (one may raise on every other file).
   */
  lemma Isolation(step1: (string, Option<string>) -> Attempt<FileResult>, step2: (string, Option<string>) -> Attempt<FileResult>,
                  paths: seq<string>, outputDir: Option<string>, k: nat)
    requires k < |paths| && step1(paths[k], outputDir) == step2(paths[k], outputDir)
    ensures Batch(step1, paths, outputDir)[k] == Batch(step2, paths, outputDir)[k]
  {
    BatchPointwise(step1, paths, outputDir);
    BatchPointwise(step2, paths, outputDir);
  }
}
