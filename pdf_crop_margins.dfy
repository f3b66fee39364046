/**
 * The crop operation (`PDFCropMarginsProcessor`): the external `pdfcrop`
 * tool is located, run with the TeX binary directory in front of PATH, and
 * asked to write `<base>_cropped.pdf`; the page count comes from `pdfinfo`.
 * The tools appear only as what they report.
 */
module PdfCropMargins {
  import opened Wrappers
  import opened PyText
  import opened PyPath
  import opened BaseProcessor

  const OperationId := "pdf_crop_margins"
  const Title := "裁剪PDF边缘空白"
  const Subtitle := "自动检测并裁剪PDF页面的空白边距"
  const DocPage := "pdf_crop_margins.html"

  const DefaultMargin := "0"

  /** The constructor's setting: the margin passed to `pdfcrop --margins`. */
  datatype Config = Config(margin: string)

  const DefaultConfig := Config(DefaultMargin)

  /** Where a TeX installation usually puts `pdfcrop`, in the order they are tried. */
  const TexPaths: seq<string> := [
    "/Library/TeX/texbin/pdfcrop",
    "/usr/local/texlive/2024/bin/universal-darwin/pdfcrop",
    "/usr/local/texlive/2023/bin/universal-darwin/pdfcrop",
    "/usr/local/bin/pdfcrop",
    "/opt/homebrew/bin/pdfcrop"
  ]

  const NotFoundMessage := "pdfcrop命令未找到。请安装: brew install texlive 或 brew install basictex"
  const OutputMissingMessage := "裁剪后的PDF文件未生成"
  const ToolFailedPrefix := "pdfcrop执行失败: "
  const PagesKey := "Pages:"

  /**
   * How a run of `pdfcrop` ends: it exits with 0 (and the output file then
   * exists or not), exits otherwise (`CalledProcessError`, with its captured
   * stderr and its `str`), or cannot be started at all.
   */
  datatype ToolRun =
    | Completed(outputPresent: bool)
    | NonZeroExit(stderr: string, text: string)
    | SpawnFault(text: string)

  /**
   * The processes the operation starts: the stdout of `which pdfcrop` (None
   * when it fails), the process environment, a run of `pdfcrop` with an
   * argument vector and an environment, and the stdout of `pdfinfo <pdf>`
   * (None when it fails).
   */
  datatype CropTools = CropTools(
    which: Option<string>,
    environ: map<string, string>,
    run: (seq<string>, map<string, string>) -> ToolRun,
    pdfinfo: string -> Option<string>)

  // ------------------------------------------------------- locating the tool

  /** What `which` found, if it names an existing file once stripped. */
  function OnSearchPath(fs: FileSystem, which: Option<string>): (r: Option<string>)
    ensures r.Some? <==> which.Some? && Strip(which.value) != "" && fs.pathExists(Strip(which.value))
    ensures r.Some? ==> r.value == Strip(which.value)
  {
    match which
    case None => None
    case Some(out) =>
      var candidate := Strip(out);
      if candidate != "" && fs.pathExists(candidate) then Some(candidate) else None
  }

  /** The index of the first of `paths` that exists, or `|paths|` when none does. */
  function FirstExisting(fs: FileSystem, paths: seq<string>): (k: nat)
    ensures k <= |paths|
    ensures k < |paths| ==> fs.pathExists(paths[k])
    ensures forall j :: 0 <= j < k ==> !fs.pathExists(paths[j])
    decreases |paths|
  {
    if paths == [] then 0
    else if fs.pathExists(paths[0]) then 0
    else 1 + FirstExisting(fs, paths[1..])
  }

  /** `_find_pdfcrop`: the search path first, then the usual TeX locations in order. */
  function PdfcropLocation(fs: FileSystem, which: Option<string>): Option<string> {
    match OnSearchPath(fs, which)
    case Some(p) => Some(p)
    case None =>
      var k := FirstExisting(fs, TexPaths);
      if k < |TexPaths| then Some(TexPaths[k]) else None
  }

  /** `PDFCropMarginsProcessor._find_pdfcrop`. */
  method FindPdfcrop(fs: FileSystem, which: Option<string>) returns (location: Option<string>)
    ensures location == PdfcropLocation(fs, which)
  {
    if which.Some? {
      var candidate := Strip(which.value);
      if candidate != "" && fs.pathExists(candidate) {
        return Some(candidate);
      }
    }
    for i := 0 to |TexPaths|
      invariant forall j :: 0 <= j < i ==> !fs.pathExists(TexPaths[j])
    {
      if fs.pathExists(TexPaths[i]) {
        assert FirstExisting(fs, TexPaths) == i by {
          FirstExistingIs(fs, TexPaths, i);
        }
        return Some(TexPaths[i]);
      }
    }
    FirstExistingIs(fs, TexPaths, |TexPaths|);
    return None;
  }

  /** The first existing path is the one before which none exists. */
  lemma {:induction false} FirstExistingIs(fs: FileSystem, paths: seq<string>, i: nat)
    requires i <= |paths| && (i < |paths| ==> fs.pathExists(paths[i]))
    requires forall j :: 0 <= j < i ==> !fs.pathExists(paths[j])
    ensures FirstExisting(fs, paths) == i
    decreases |paths|
  {
    if paths != [] && i > 0 {
      FirstExistingIs(fs, paths[1..], i - 1);
    }
  }

  /**
   * The tool is found exactly when `which` names an existing file or one of the
   * TeX locations exists; what is found always exists, and `which` wins over
   * the TeX locations, the earliest of which wins over the later ones.
   */
  lemma PdfcropFoundIffPresent(fs: FileSystem, which: Option<string>)
    ensures var r := PdfcropLocation(fs, which);
      && (r.None? <==> OnSearchPath(fs, which).None? && forall j :: 0 <= j < |TexPaths| ==> !fs.pathExists(TexPaths[j]))
      && (r.Some? ==> r.value != "" && fs.pathExists(r.value))
      && (OnSearchPath(fs, which).Some? ==> r == OnSearchPath(fs, which))
      && (OnSearchPath(fs, which).None? && r.Some? ==>
            exists k :: 0 <= k < |TexPaths| && r.value == TexPaths[k] && forall j :: 0 <= j < k ==> !fs.pathExists(TexPaths[j]))
  {
    var r := PdfcropLocation(fs, which);
    if OnSearchPath(fs, which).None? && r.Some? {
      var k := FirstExisting(fs, TexPaths);
      assert r.value == TexPaths[k];
      assert TexPaths[k] != "";
    }
  }

  // ------------------------------------------------------------- environment

  /** `os.environ.copy()` with the tool's directory put in front of PATH (or as the whole PATH). */
  function AugmentedEnv(environ: map<string, string>, binDir: string): (env: map<string, string>)
    ensures env.Keys == environ.Keys + {"PATH"}
    ensures forall k :: k in environ && k != "PATH" ==> env[k] == environ[k]
    ensures env["PATH"] == if "PATH" in environ then binDir + ":" + environ["PATH"] else binDir
  {
    if "PATH" in environ then environ["PATH" := binDir + ":" + environ["PATH"]]
    else environ["PATH" := binDir]
  }

  /**
   * The augmented PATH, read as the list of directories it names, is the tool's
   * directory followed by the directories the process already searched.
   */
  lemma PathSearchesToolDirFirst(environ: map<string, string>, binDir: string)
    requires ':' !in binDir
    ensures Split(AugmentedEnv(environ, binDir)["PATH"], ':')
      == [binDir] + (if "PATH" in environ then Split(environ["PATH"], ':') else [])
  {
    SplitFree(binDir, ':');
    if "PATH" in environ {
      SplitAfterFirst(binDir, ':', environ["PATH"]);
      assert binDir + ":" + environ["PATH"] == binDir + [':'] + environ["PATH"];
    }
  }

  // ------------------------------------------------------------- page count

  /** The index of the first line starting with "Pages:", or `|lines|` when there is none. */
  function FirstPagesLine(lines: seq<string>): (k: nat)
    ensures k <= |lines|
    ensures k < |lines| ==> StartsWith(lines[k], PagesKey)
    ensures forall j :: 0 <= j < k ==> !StartsWith(lines[j], PagesKey)
    decreases |lines|
  {
    if lines == [] then 0
    else if StartsWith(lines[0], PagesKey) then 0
    else 1 + FirstPagesLine(lines[1..])
  }

  /** `int(line.split(':')[1].strip())`, or 0 when `int` raises (the bare `except` returns 0). */
  function PagesField(line: string): int
    requires ':' in line
  {
    SplitAtLeastTwo(line, ':');
    ParseInt(Strip(Split(line, ':')[1])).GetOr(0)
  }

  /** `_count_pdf_pages` given what `pdfinfo` printed: the first "Pages:" line decides, otherwise 0. */
  function PageCount(info: Option<string>): int {
    match info
    case None => 0
    case Some(out) =>
      var lines := Split(out, '\n');
      var k := FirstPagesLine(lines);
      if k < |lines| then
        assert ':' in lines[k] by {
          assert lines[k][5] == ':';
        }
        PagesField(lines[k])
      else 0
  }

  /** `PDFCropMarginsProcessor._count_pdf_pages`. */
  method CountPdfPages(tools: CropTools, path: string) returns (count: int)
    ensures count == PageCount(tools.pdfinfo(path))
  {
    var info := tools.pdfinfo(path);
    if info.None? {
      return 0;
    }
    var lines := Split(info.value, '\n');
    for i := 0 to |lines|
      invariant forall j :: 0 <= j < i ==> !StartsWith(lines[j], PagesKey)
    {
      if StartsWith(lines[i], PagesKey) {
        FirstPagesLineIs(lines, i);
        assert ':' in lines[i] by {
          assert lines[i][5] == ':';
        }
        SplitAtLeastTwo(lines[i], ':');
        var field := Split(lines[i], ':')[1];
        var parsed := ParseInt(Strip(field));
        if parsed.None? {
          return 0;
        }
        return parsed.value;
      }
    }
    FirstPagesLineIs(lines, |lines|);
    return 0;
  }

  /** The first "Pages:" line is the one before which there is none. */
  lemma {:induction false} FirstPagesLineIs(lines: seq<string>, i: nat)
    requires i <= |lines| && (i < |lines| ==> StartsWith(lines[i], PagesKey))
    requires forall j :: 0 <= j < i ==> !StartsWith(lines[j], PagesKey)
    ensures FirstPagesLine(lines) == i
    decreases |lines|
  {
    if lines != [] && i > 0 {
      FirstPagesLineIs(lines[1..], i - 1);
    }
  }

  /** The report line `pdfinfo` prints for an n-page document: "Pages:", padding, n. */
  function PagesReport(pad: string, n: nat): string {
    PagesKey + pad + Decimal(n)
  }

  /** The field of a report line is the padded count. */
  lemma PagesReportField(pad: string, n: nat)
    requires forall i :: 0 <= i < |pad| ==> IsSpace(pad[i])
    ensures ':' in PagesReport(pad, n)
    ensures Split(PagesReport(pad, n), ':') == ["Pages", pad + Decimal(n)]
  {
    var line := PagesReport(pad, n);
    assert line == "Pages" + [':'] + (pad + Decimal(n));
    assert line[5] == ':';
    SplitAfterFirst("Pages", ':', pad + Decimal(n));
    DecimalDenotes(n);
    assert ':' !in pad + Decimal(n) by {
      forall i | 0 <= i < |pad + Decimal(n)| ensures (pad + Decimal(n))[i] != ':' {
        if i < |pad| {
          assert IsSpace(pad[i]);
        } else {
          assert IsDigit(Decimal(n)[i - |pad|]);
        }
      }
    }
    SplitFree(pad + Decimal(n), ':');
  }

  /** Reading back a count: the field of a report line parses to the count. */
  lemma PagesReportParses(pad: string, n: nat)
    requires forall i :: 0 <= i < |pad| ==> IsSpace(pad[i])
    ensures ':' in PagesReport(pad, n) && PagesField(PagesReport(pad, n)) == n
  {
    PagesReportField(pad, n);
    DecimalDenotes(n);
    var d := Decimal(n);
    assert d == IntString(n);
    assert IsStripped(d) by {
      assert IsDigit(d[0]) && IsDigit(d[|d| - 1]);
    }
    StripAfterSpaces(pad, d);
    StripStripped(d);
    ParseIntString(n);
  }

  /** A report line holds no line break when its padding holds none. */
  lemma PagesReportIsOneLine(pad: string, n: nat)
    requires '\n' !in pad
    ensures '\n' !in PagesReport(pad, n)
  {
    DecimalDenotes(n);
    var line := PagesReport(pad, n);
    forall i | 0 <= i < |line| ensures line[i] != '\n' {
      if i < 6 {
      } else if i < 6 + |pad| {
        assert line[i] == pad[i - 6];
      } else {
        assert line[i] == Decimal(n)[i - 6 - |pad|];
        assert IsDigit(Decimal(n)[i - 6 - |pad|]);
      }
    }
  }

  lemma NoBreakInLines(before: seq<string>, line: string, after: seq<string>)
    requires forall j :: 0 <= j < |before| ==> '\n' !in before[j]
    requires forall j :: 0 <= j < |after| ==> '\n' !in after[j]
    requires '\n' !in line
    ensures forall j :: 0 <= j < |before + [line] + after| ==> '\n' !in (before + [line] + after)[j]
  {
    var lines := before + [line] + after;
    forall j | 0 <= j < |lines| ensures '\n' !in lines[j] {
      if j < |before| {
        assert lines[j] == before[j];
      } else if j > |before| {
        assert lines[j] == after[j - |before| - 1];
      }
    }
  }

  /**
   * Round trip: whatever `pdfinfo` prints around it, the count on the first
   * "Pages:" line is the count returned.
   */
  lemma PageCountReadsReport(before: seq<string>, pad: string, n: nat, after: seq<string>)
    requires forall i :: 0 <= i < |pad| ==> IsSpace(pad[i])
    requires forall j :: 0 <= j < |before| ==> !StartsWith(before[j], PagesKey)
    requires forall j :: 0 <= j < |before| ==> '\n' !in before[j]
    requires forall j :: 0 <= j < |after| ==> '\n' !in after[j]
    requires '\n' !in pad
    ensures PageCount(Some(JoinWith(before + [PagesReport(pad, n)] + after, '\n'))) == n
  {
    PagesReportIsOneLine(pad, n);
    PagesReportParses(pad, n);
    FirstReportDecides(before, PagesReport(pad, n), after);
  }

  /**
   * Only the first "Pages:" line is read: the count is what its field gives,
   * whatever lines follow it, later "Pages:" lines included.
   */
  lemma FirstReportDecides(before: seq<string>, line: string, after: seq<string>)
    requires forall j :: 0 <= j < |before| ==> !StartsWith(before[j], PagesKey)
    requires forall j :: 0 <= j < |before| ==> '\n' !in before[j]
    requires forall j :: 0 <= j < |after| ==> '\n' !in after[j]
    requires StartsWith(line, PagesKey) && '\n' !in line
    ensures ':' in line && PageCount(Some(JoinWith(before + [line] + after, '\n'))) == PagesField(line)
  {
    var lines := before + [line] + after;
    NoBreakInLines(before, line, after);
    SplitJoin(lines, '\n');
    FirstReportLine(before, line, after);
    PageCountAt(JoinWith(lines, '\n'), |before|);
  }

  /**
   * A first "Pages:" line whose field is not an integer counts 0 (the bare
   * `except` of `_count_pdf_pages`), even when a later "Pages:" line is readable.
   */
  lemma UnreadableReportCountsZero(before: seq<string>, line: string, after: seq<string>)
    requires forall j :: 0 <= j < |before| ==> !StartsWith(before[j], PagesKey)
    requires forall j :: 0 <= j < |before| ==> '\n' !in before[j]
    requires forall j :: 0 <= j < |after| ==> '\n' !in after[j]
    requires StartsWith(line, PagesKey) && '\n' !in line
    requires |Split(line, ':')| >= 2 && ParseInt(Strip(Split(line, ':')[1])) == None
    ensures PageCount(Some(JoinWith(before + [line] + after, '\n'))) == 0
  {
    FirstReportDecides(before, line, after);
  }

  /** The report placed after lines without one is the first report line. */
  lemma FirstReportLine(before: seq<string>, report: string, after: seq<string>)
    requires forall j :: 0 <= j < |before| ==> !StartsWith(before[j], PagesKey)
    requires StartsWith(report, PagesKey)
    ensures FirstPagesLine(before + [report] + after) == |before|
  {
    var lines := before + [report] + after;
    assert lines[|before|] == report;
    forall j | 0 <= j < |before| ensures !StartsWith(lines[j], PagesKey) {
      assert lines[j] == before[j];
    }
    FirstPagesLineIs(lines, |before|);
  }

  /** The count is read from the first report line. */
  lemma PageCountAt(out: string, k: nat)
    requires k < |Split(out, '\n')| && FirstPagesLine(Split(out, '\n')) == k
    ensures ':' in Split(out, '\n')[k] && PageCount(Some(out)) == PagesField(Split(out, '\n')[k])
  {
    assert Split(out, '\n')[k][5] == ':';
  }

  /** Without a "Pages:" line, or when `pdfinfo` fails, the count is 0. */
  lemma NoReportCountsZero(out: string)
    requires forall j :: 0 <= j < |Split(out, '\n')| ==> !StartsWith(Split(out, '\n')[j], PagesKey)
    ensures PageCount(Some(out)) == 0 && PageCount(None) == 0
  {
    FirstPagesLineIs(Split(out, '\n'), |Split(out, '\n')|);
  }

  // ----------------------------------------------------------------- process

  /** The file the cropped document is written to. */
  function CroppedPath(dir: string, base: string): string {
    Join(dir, base + "_cropped.pdf")
  }

  /** The argument vector: the tool, the margins option, the input and the output. */
  function CropCommand(cmd: string, margin: string, path: string, outputPath: string): seq<string> {
    [cmd, "--margins", margin, path, outputPath]
  }

  function SuccessMessage(pages: int): string {
    "成功裁剪 " + IntString(pages) + " 页"
  }

  /** What a failed `pdfcrop` run reports: its captured stderr, or the exception text when that is empty. */
  function ToolFailure(stderr: string, text: string): string {
    ToolFailedPrefix + (if stderr != "" then stderr else text)
  }

  /** The part of `process_single` after the tool is found: run it, check its output, count the pages. */
  function Cropping(config: Config, path: string, outputPath: string, cmd: string, tools: CropTools, effects: seq<Effect>): Run {
    var env := AugmentedEnv(tools.environ, Dirname(cmd));
    var argv := CropCommand(cmd, config.margin, path, outputPath);
    var effects := effects + [Invoke(argv, env)];
    match tools.run(argv, env)
    case NonZeroExit(stderr, text) => Run(ErrorResult(path, ToolFailure(stderr, text)), effects)
    case SpawnFault(text) => Run(ErrorResult(path, text), effects)
    case Completed(outputPresent) =>
      if !outputPresent then Run(ErrorResult(path, OutputMissingMessage), effects)
      else
        var pages := PageCount(tools.pdfinfo(path));
        Run(FileResult(Success, path, SuccessMessage(pages), [outputPath], Some(pages), None), effects)
  }

  /** `process_single`: validation, output directory, locating the tool, running it, then counting pages. */
  function CropRun(config: Config, path: string, outputDir: Option<string>, fs: FileSystem, tools: CropTools): Run {
    match ValidationFault(path, fs)
    case Some(fault) => Run(ErrorResult(path, fault), [])
    case None =>
      var (dirAttempt, effects) := OutputDir(path, outputDir, fs);
      match dirAttempt
      case Raised(fault) => Run(ErrorResult(path, fault), effects)
      case Returned(dir) =>
        var outputPath := CroppedPath(dir, BaseFilename(path));
        match PdfcropLocation(fs, tools.which)
        case None => Run(ErrorResult(path, NotFoundMessage), effects)
        case Some(cmd) => Cropping(config, path, outputPath, cmd, tools, effects)
  }

  /** `PDFCropMarginsProcessor.process_single`. */
  method ProcessSingle(config: Config, path: string, outputDir: Option<string>, fs: FileSystem, tools: CropTools)
    returns (run: Run)
    ensures run == CropRun(config, path, outputDir, fs, tools)
  {
    var invalid := ValidationFault(path, fs);
    if invalid.Some? {
      return Run(ErrorResult(path, invalid.value), []);
    }
    var (dirAttempt, effects) := OutputDir(path, outputDir, fs);
    if dirAttempt.Raised? {
      return Run(ErrorResult(path, dirAttempt.text), effects);
    }
    var outputPath := Join(dirAttempt.value, BaseFilename(path) + "_cropped.pdf");
    var pdfcropCmd := FindPdfcrop(fs, tools.which);
    if pdfcropCmd.None? {
      return Run(ErrorResult(path, NotFoundMessage), effects);
    }
    run := RunPdfcrop(config, path, outputPath, pdfcropCmd.value, tools, effects);
  }

  /** The tail of `process_single`: build the environment and the command, run it, check and count. */
  method RunPdfcrop(config: Config, path: string, outputPath: string, pdfcropCmd: string, tools: CropTools, effects0: seq<Effect>)
    returns (run: Run)
    ensures run == Cropping(config, path, outputPath, pdfcropCmd, tools, effects0)
  {
    var env := tools.environ;
    var texBinDir := Dirname(pdfcropCmd);
    if "PATH" in env {
      env := env["PATH" := texBinDir + ":" + env["PATH"]];
    } else {
      env := env["PATH" := texBinDir];
    }
    var cmd := [pdfcropCmd, "--margins", config.margin, path, outputPath];
    var effects := effects0 + [Invoke(cmd, env)];
    var outcome := tools.run(cmd, env);
    if outcome.NonZeroExit? {
      var errorMsg := ToolFailedPrefix + (if outcome.stderr != "" then outcome.stderr else outcome.text);
      return Run(ErrorResult(path, errorMsg), effects);
    }
    if outcome.SpawnFault? {
      return Run(ErrorResult(path, outcome.text), effects);
    }
    if !outcome.outputPresent {
      return Run(ErrorResult(path, OutputMissingMessage), effects);
    }
    var pageCount := CountPdfPages(tools, path);
    run := Run(FileResult(Success, path, SuccessMessage(pageCount), [outputPath], Some(pageCount), None), effects);
  }

  // ---------------------------------------------------------------- properties

  /** An input that fails validation is reported as such, and nothing is created or run. */
  lemma ValidationComesFirst(config: Config, path: string, outputDir: Option<string>, fs: FileSystem, tools: CropTools)
    requires ValidationFault(path, fs).Some?
    ensures var run := CropRun(config, path, outputDir, fs, tools);
      run.result == ErrorResult(path, ValidationFault(path, fs).value) && run.effects == []
  {
  }

  /** Every failure is an error record for the input with no output files. */
  lemma ErrorsReportNoOutputs(config: Config, path: string, outputDir: Option<string>, fs: FileSystem, tools: CropTools)
    ensures var r := CropRun(config, path, outputDir, fs, tools).result;
      r.file == path && (r.status == Error ==> r.outputFiles == [] && r.pageCount == None)
  {
    if ValidationFault(path, fs).None? {
      var (dirAttempt, effects) := OutputDir(path, outputDir, fs);
      if dirAttempt.Returned? && PdfcropLocation(fs, tools.which).Some? {
        var outputPath := CroppedPath(dirAttempt.value, BaseFilename(path));
        CroppingErrorsHaveNoOutputs(config, path, outputPath, PdfcropLocation(fs, tools.which).value, tools, effects);
      }
    }
  }

  /** The tail of the run reports the input, and its errors have no outputs. */
  lemma CroppingErrorsHaveNoOutputs(config: Config, path: string, outputPath: string, cmd: string, tools: CropTools, effects: seq<Effect>)
    ensures var r := Cropping(config, path, outputPath, cmd, tools, effects).result;
      r.file == path && (r.status == Error ==> r.outputFiles == [] && r.pageCount == None)
  {
  }

  /** Without the tool the run fails with the install hint, after creating the output directory but before running anything. */
  lemma MissingToolRunsNothing(config: Config, path: string, outputDir: Option<string>, fs: FileSystem, tools: CropTools)
    requires ValidationFault(path, fs) == None
    requires MakedirsFault(fs, outputDir.GetOr(DefaultOutputDir(path))) == None
    requires OnSearchPath(fs, tools.which) == None
    requires forall j :: 0 <= j < |TexPaths| ==> !fs.pathExists(TexPaths[j])
    ensures var run := CropRun(config, path, outputDir, fs, tools);
      run.result == ErrorResult(path, NotFoundMessage)
      && run.effects == [MakeDirs(outputDir.GetOr(DefaultOutputDir(path)))]
  {
    PdfcropFoundIffPresent(fs, tools.which);
  }

  /**
   * A successful crop found the tool, ran it once as `<tool> --margins <margin>
   * <input> <output>` with the tool's directory first on PATH, the tool exited
   * normally and left the output file, and the result reports exactly that file
   * and the count read from `pdfinfo`.
   */
  lemma SuccessReportsCroppedFile(config: Config, path: string, outputDir: Option<string>, fs: FileSystem, tools: CropTools)
    requires CropRun(config, path, outputDir, fs, tools).result.status == Success
    ensures ValidationFault(path, fs) == None
    ensures PdfcropLocation(fs, tools.which).Some?
    ensures var run := CropRun(config, path, outputDir, fs, tools);
      var dir := outputDir.GetOr(DefaultOutputDir(path));
      var cmd := PdfcropLocation(fs, tools.which).value;
      var outputPath := Join(dir, BaseFilename(path) + "_cropped.pdf");
      var env := AugmentedEnv(tools.environ, Dirname(cmd));
      var argv := CropCommand(cmd, config.margin, path, outputPath);
      && fs.pathExists(cmd)
      && tools.run(argv, env) == Completed(true)
      && run.effects == [MakeDirs(dir), Invoke(argv, env)]
      && run.result.outputFiles == [outputPath]
      && run.result.pageCount == Some(PageCount(tools.pdfinfo(path)))
  {
    PdfcropFoundIffPresent(fs, tools.which);
    var (dirAttempt, effects) := OutputDir(path, outputDir, fs);
    assert dirAttempt.Returned?;
    var dir := outputDir.GetOr(DefaultOutputDir(path));
    var cmd := PdfcropLocation(fs, tools.which).value;
    var outputPath := CroppedPath(dir, BaseFilename(path));
    assert CropRun(config, path, outputDir, fs, tools) == Cropping(config, path, outputPath, cmd, tools, effects);
    CroppingSucceeded(config, path, outputPath, cmd, tools, effects);
  }

  /** The success of the tail of `process_single`: one normal run that left its output. */
  lemma CroppingSucceeded(config: Config, path: string, outputPath: string, cmd: string, tools: CropTools, effects: seq<Effect>)
    requires Cropping(config, path, outputPath, cmd, tools, effects).result.status == Success
    ensures var run := Cropping(config, path, outputPath, cmd, tools, effects);
      var env := AugmentedEnv(tools.environ, Dirname(cmd));
      var argv := CropCommand(cmd, config.margin, path, outputPath);
      && tools.run(argv, env) == Completed(true)
      && run.effects == effects + [Invoke(argv, env)]
      && run.result.outputFiles == [outputPath]
      && run.result.pageCount == Some(PageCount(tools.pdfinfo(path)))
  {
  }

  /** Conversely, a found tool that exits normally and leaves its output makes the run succeed with that one file. */
  lemma OutputWrittenSucceeds(config: Config, path: string, outputDir: Option<string>, fs: FileSystem, tools: CropTools, cmd: string)
    requires ValidationFault(path, fs) == None
    requires MakedirsFault(fs, outputDir.GetOr(DefaultOutputDir(path))) == None
    requires PdfcropLocation(fs, tools.which) == Some(cmd)
    requires var outputPath := CroppedPath(outputDir.GetOr(DefaultOutputDir(path)), BaseFilename(path));
      var env := AugmentedEnv(tools.environ, Dirname(cmd));
      tools.run(CropCommand(cmd, config.margin, path, outputPath), env) == Completed(true)
    ensures var r := CropRun(config, path, outputDir, fs, tools).result;
      r.status == Success
      && r.outputFiles == [CroppedPath(outputDir.GetOr(DefaultOutputDir(path)), BaseFilename(path))]
  {
  }

  /** A tool that exits normally without writing the output still fails the run. */
  lemma OutputMissingFails(config: Config, path: string, outputDir: Option<string>, fs: FileSystem, tools: CropTools, cmd: string)
    requires ValidationFault(path, fs) == None
    requires MakedirsFault(fs, outputDir.GetOr(DefaultOutputDir(path))) == None
    requires PdfcropLocation(fs, tools.which) == Some(cmd)
    requires var outputPath := CroppedPath(outputDir.GetOr(DefaultOutputDir(path)), BaseFilename(path));
      var env := AugmentedEnv(tools.environ, Dirname(cmd));
      tools.run(CropCommand(cmd, config.margin, path, outputPath), env) == Completed(false)
    ensures CropRun(config, path, outputDir, fs, tools).result == ErrorResult(path, OutputMissingMessage)
  {
  }

  /** A tool that exits with an error is reported with its stderr, or with the exception text when stderr is empty. */
  lemma ToolFailureReported(config: Config, path: string, outputDir: Option<string>, fs: FileSystem, tools: CropTools,
                            cmd: string, stderr: string, text: string)
    requires ValidationFault(path, fs) == None
    requires MakedirsFault(fs, outputDir.GetOr(DefaultOutputDir(path))) == None
    requires PdfcropLocation(fs, tools.which) == Some(cmd)
    requires var outputPath := CroppedPath(outputDir.GetOr(DefaultOutputDir(path)), BaseFilename(path));
      var env := AugmentedEnv(tools.environ, Dirname(cmd));
      tools.run(CropCommand(cmd, config.margin, path, outputPath), env) == NonZeroExit(stderr, text)
    ensures var r := CropRun(config, path, outputDir, fs, tools).result;
      r.status == Error && StartsWith(r.message, ToolFailedPrefix)
      && r.message[|ToolFailedPrefix|..] == (if stderr != "" then stderr else text)
  {
    var m := ToolFailure(stderr, text);
    assert m[..|ToolFailedPrefix|] == ToolFailedPrefix;
  }

  /**
   * With the default output directory, the cropped file sits beside its input
   * as `<n>_cropped.pdf`, and it is never the input itself.
   */
  lemma CroppedFileBesideInput(d: string, n: string, ext: string)
    requires d != [] && d[|d| - 1] != '/'
    requires IsPlainName(n + "." + ext) && n != [] && ext != [] && '.' !in ext
    ensures var input := Join(d, n + "." + ext);
      var output := CroppedPath(DefaultOutputDir(input), BaseFilename(input));
      output == d + "/" + n + "_cropped.pdf" && output != input
  {
    var f := n + "." + ext;
    var input := Join(d, f);
    DefaultOutputDirContainsInput(d, f);
    BaseFilenameOfPdf(d, n, ext);
    JoinTakenApart(d, f);
    var g := n + "_cropped.pdf";
    assert g[0] == n[0] == f[0] != '/';
    assert !StartsWith(g, "/");
    var output := d + "/" + g;
    assert CroppedPath(d, n) == output;
    var i := |d| + 1 + |n|;
    assert output[i] == '_';
    if |input| > i {
      assert input[i] == '.';
    }
  }
}
