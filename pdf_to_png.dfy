/**
 * The rasterize operation (`PDFToPNGProcessor`): every page becomes an image
 * next to the input. Rendering and saving are done by imaging libraries and
 * appear here only as what they report: the number of images, or a fault.
 */
module PdfToPng {
  import opened Wrappers
  import opened PyText
  import opened PyPath
  import opened BaseProcessor

  const OperationId := "pdf_to_png"
  const Title := "PDF转PNG图片"
  const Subtitle := "将PDF的每一页转换为PNG图片（300 DPI）"
  const DocPage := "pdf_to_png.html"

  const DefaultDpi := 300
  const DefaultFormat := "PNG"

  /** The constructor's settings. */
  datatype Config = Config(dpi: int, fmt: string)

  const DefaultConfig := Config(DefaultDpi, DefaultFormat)

  /**
   * The imaging libraries: how many images `convert_from_path(pdf, dpi=dpi)`
   * renders (or what it raises), and what saving image i (from 1) to a path in
   * a format raises, if anything.
   */
  datatype Renderer = Renderer(convert: (string, int) -> Attempt<nat>, save: (nat, string, string) -> Option<string>)

  /** The name of image i (from 1) of `count`: `<base>.png` for a lone image, else `<base>_page_<i>.png`. */
  function ImageName(dir: string, base: string, count: nat, i: nat): string {
    if count == 1 then Join(dir, base + ".png") else Join(dir, base + "_page_" + Decimal(i) + ".png")
  }

  function ImageNames(dir: string, base: string, count: nat): (names: seq<string>)
    ensures |names| == count
  {
    seq(count, k requires 0 <= k < count => ImageName(dir, base, count, k + 1))
  }

  /** The fault of the k-th save (from 0), for the loop over `names`. */
  function SaveFault(renderer: Renderer, names: seq<string>, fmt: string): nat -> Option<string> {
    (k: nat) => if k < |names| then renderer.save(k + 1, names[k], fmt) else None
  }

  function SuccessMessage(pages: nat): string {
    "成功转换 " + Decimal(pages) + " 页"
  }

  /** `process_single`: validation, output directory, rendering, then one save per image. */
  function ToPngRun(config: Config, path: string, outputDir: Option<string>, fs: FileSystem, renderer: Renderer): Run {
    match ValidationFault(path, fs)
    case Some(fault) => Run(ErrorResult(path, fault), [])
    case None =>
      var (dirAttempt, effects) := OutputDir(path, outputDir, fs);
      match dirAttempt
      case Raised(fault) => Run(ErrorResult(path, fault), effects)
      case Returned(dir) =>
        var base := BaseFilename(path);
        match renderer.convert(path, config.dpi)
        case Raised(fault) => Run(ErrorResult(path, fault), effects)
        case Returned(count) =>
          var names := ImageNames(dir, base, count);
          var success := FileResult(Success, path, SuccessMessage(count), names, Some(count), None);
          SavingRun(path, names, SaveFault(renderer, names, config.fmt), success, effects)
  }

  /** `PDFToPNGProcessor.process_single`. */
  method ProcessSingle(config: Config, path: string, outputDir: Option<string>, fs: FileSystem, renderer: Renderer)
    returns (run: Run)
    ensures run == ToPngRun(config, path, outputDir, fs, renderer)
  {
    var invalid := ValidationFault(path, fs);
    if invalid.Some? {
      return Run(ErrorResult(path, invalid.value), []);
    }
    var (dirAttempt, effects) := OutputDir(path, outputDir, fs);
    if dirAttempt.Raised? {
      return Run(ErrorResult(path, dirAttempt.text), effects);
    }
    var base := BaseFilename(path);
    var images := renderer.convert(path, config.dpi);
    if images.Raised? {
      return Run(ErrorResult(path, images.text), effects);
    }
    run := SaveImages(config, path, dirAttempt.value, base, images.value, renderer, effects);
  }

  /** The loop of `process_single` over the rendered images: name each one, save it, record it. */
  method SaveImages(config: Config, path: string, dir: string, base: string, count: nat, renderer: Renderer, effects0: seq<Effect>)
    returns (run: Run)
    ensures var names := ImageNames(dir, base, count);
      run == SavingRun(path, names, SaveFault(renderer, names, config.fmt),
                       FileResult(Success, path, SuccessMessage(count), names, Some(count), None), effects0)
  {
    ghost var names := ImageNames(dir, base, count);
    ghost var fault := SaveFault(renderer, names, config.fmt);
    var effects := effects0;
    var outputFiles := [];
    var i := 1;
    while i <= count
      invariant 1 <= i <= count + 1
      invariant outputFiles == names[..i - 1]
      invariant effects == effects0 + Writes(outputFiles)
      invariant forall j :: 0 <= j < i - 1 ==> fault(j).None?
    {
      var outputPath;
      if count == 1 {
        outputPath := Join(dir, base + ".png");
      } else {
        outputPath := Join(dir, base + "_page_" + Decimal(i) + ".png");
      }
      assert outputPath == names[i - 1];
      var saveFault := renderer.save(i, outputPath, config.fmt);
      effects := effects + [Write(outputPath)];
      if saveFault.Some? {
        assert fault(i - 1) == saveFault;
        assert FirstFault(fault, count) == i - 1;
        assert outputFiles + [outputPath] == names[..i];
        assert Writes(outputFiles) + [Write(outputPath)] == Writes(names[..i]);
        return Run(ErrorResult(path, saveFault.value), effects);
      }
      assert Writes(outputFiles) + [Write(outputPath)] == Writes(outputFiles + [outputPath]);
      outputFiles := outputFiles + [outputPath];
      i := i + 1;
    }
    assert outputFiles == names;
    run := Run(FileResult(Success, path, SuccessMessage(count), outputFiles, Some(count), None), effects);
  }

  // ---------------------------------------------------------------- properties

  /** An input that fails validation is reported as such, and nothing is created or written. */
  lemma ValidationComesFirst(config: Config, path: string, outputDir: Option<string>, fs: FileSystem, renderer: Renderer)
    requires ValidationFault(path, fs).Some?
    ensures var run := ToPngRun(config, path, outputDir, fs, renderer);
      run.result == ErrorResult(path, ValidationFault(path, fs).value) && run.effects == []
  {
  }

  /** Every failure is an error record for the input with no output files. */
  lemma ErrorsReportNoOutputs(config: Config, path: string, outputDir: Option<string>, fs: FileSystem, renderer: Renderer)
    ensures var r := ToPngRun(config, path, outputDir, fs, renderer).result;
      r.file == path && (r.status == Error ==> r.outputFiles == [] && r.pageCount == None)
  {
  }

  /** A fault creating the output directory is the run's error. */
  lemma MakedirsFaultIsError(config: Config, path: string, outputDir: Option<string>, fs: FileSystem, renderer: Renderer)
    requires ValidationFault(path, fs) == None
    requires MakedirsFault(fs, outputDir.GetOr(DefaultOutputDir(path))).Some?
    ensures ToPngRun(config, path, outputDir, fs, renderer).result
         == ErrorResult(path, MakedirsFault(fs, outputDir.GetOr(DefaultOutputDir(path))).value)
  {
  }

  /** A fault of `convert_from_path` is the run's error, and nothing is written. */
  lemma ConvertFaultIsError(config: Config, path: string, outputDir: Option<string>, fs: FileSystem, renderer: Renderer)
    requires ValidationFault(path, fs) == None
    requires MakedirsFault(fs, outputDir.GetOr(DefaultOutputDir(path))) == None
    requires renderer.convert(path, config.dpi).Raised?
    ensures var run := ToPngRun(config, path, outputDir, fs, renderer);
      run.result == ErrorResult(path, renderer.convert(path, config.dpi).text)
      && run.effects == [MakeDirs(outputDir.GetOr(DefaultOutputDir(path)))]
  {
  }

  /** Image i is saved without a fault, for every i from 1 to `count`. */
  predicate AllSaved(renderer: Renderer, dir: string, base: string, count: nat, fmt: string) {
    forall i :: 1 <= i <= count ==> renderer.save(i, ImageName(dir, base, count, i), fmt) == None
  }

  /** Past validation, the output directory and rendering, the run is the saving of the image names. */
  lemma RunSavesImages(config: Config, path: string, outputDir: Option<string>, fs: FileSystem, renderer: Renderer)
    requires ValidationFault(path, fs) == None
    requires MakedirsFault(fs, outputDir.GetOr(DefaultOutputDir(path))) == None
    requires renderer.convert(path, config.dpi).Returned?
    ensures var dir, count := outputDir.GetOr(DefaultOutputDir(path)), renderer.convert(path, config.dpi).value;
      var names := ImageNames(dir, BaseFilename(path), count);
      ToPngRun(config, path, outputDir, fs, renderer)
        == SavingRun(path, names, SaveFault(renderer, names, config.fmt),
                     FileResult(Success, path, SuccessMessage(count), names, Some(count), None), [MakeDirs(dir)])
  {
  }

  /** Save j of the loop (from 0) is the save of image j + 1 under its name. */
  lemma SaveFaultOfImage(renderer: Renderer, dir: string, base: string, count: nat, fmt: string, j: nat)
    requires j < count
    ensures SaveFault(renderer, ImageNames(dir, base, count), fmt)(j) == renderer.save(j + 1, ImageName(dir, base, count, j + 1), fmt)
  {
  }

  /**
   * When image k is the first whose save raises, the run's error is that fault,
   * and images 1..k were written (the k-th possibly in part).
   */
  lemma SaveFaultIsError(config: Config, path: string, outputDir: Option<string>, fs: FileSystem, renderer: Renderer, k: nat)
    requires ValidationFault(path, fs) == None
    requires MakedirsFault(fs, outputDir.GetOr(DefaultOutputDir(path))) == None
    requires renderer.convert(path, config.dpi).Returned? && 1 <= k <= renderer.convert(path, config.dpi).value
    requires var dir, count := outputDir.GetOr(DefaultOutputDir(path)), renderer.convert(path, config.dpi).value;
      && renderer.save(k, ImageName(dir, BaseFilename(path), count, k), config.fmt).Some?
      && forall i :: 1 <= i < k ==> renderer.save(i, ImageName(dir, BaseFilename(path), count, i), config.fmt) == None
    ensures var run := ToPngRun(config, path, outputDir, fs, renderer);
      var dir, count := outputDir.GetOr(DefaultOutputDir(path)), renderer.convert(path, config.dpi).value;
      && run.result == ErrorResult(path, renderer.save(k, ImageName(dir, BaseFilename(path), count, k), config.fmt).value)
      && run.effects == [MakeDirs(dir)] + Writes(ImageNames(dir, BaseFilename(path), count)[..k])
  {
    var dir, count := outputDir.GetOr(DefaultOutputDir(path)), renderer.convert(path, config.dpi).value;
    var base := BaseFilename(path);
    var names := ImageNames(dir, base, count);
    var fault := SaveFault(renderer, names, config.fmt);
    forall j | 0 <= j < k - 1 ensures fault(j).None? {
      SaveFaultOfImage(renderer, dir, base, count, config.fmt, j);
    }
    SaveFaultOfImage(renderer, dir, base, count, config.fmt, k - 1);
    RunSavesImages(config, path, outputDir, fs, renderer);
    SavingRunFault(path, names, fault, FileResult(Success, path, SuccessMessage(count), names, Some(count), None), [MakeDirs(dir)], k - 1);
  }

  /** No save of the loop raises exactly when every image saves. */
  lemma NoSaveFaultIffAllSaved(renderer: Renderer, dir: string, base: string, count: nat, fmt: string)
    ensures (forall j :: 0 <= j < count ==> SaveFault(renderer, ImageNames(dir, base, count), fmt)(j).None?)
        <==> AllSaved(renderer, dir, base, count, fmt)
  {
    var fault := SaveFault(renderer, ImageNames(dir, base, count), fmt);
    if AllSaved(renderer, dir, base, count, fmt) {
      forall j | 0 <= j < count ensures fault(j).None? {
        SaveFaultOfImage(renderer, dir, base, count, fmt, j);
      }
    }
    if forall j :: 0 <= j < count ==> fault(j).None? {
      forall i | 1 <= i <= count ensures renderer.save(i, ImageName(dir, base, count, i), fmt) == None {
        SaveFaultOfImage(renderer, dir, base, count, fmt, i - 1);
      }
    }
  }

  /**
   * The run succeeds exactly when nothing raises: the input is valid, the
   * output directory is created, the document renders, and every image saves.
   */
  lemma SucceedsIffNoFault(config: Config, path: string, outputDir: Option<string>, fs: FileSystem, renderer: Renderer)
    ensures ToPngRun(config, path, outputDir, fs, renderer).result.status == Success
        <==> && ValidationFault(path, fs) == None
             && MakedirsFault(fs, outputDir.GetOr(DefaultOutputDir(path))) == None
             && renderer.convert(path, config.dpi).Returned?
             && AllSaved(renderer, outputDir.GetOr(DefaultOutputDir(path)), BaseFilename(path),
                         renderer.convert(path, config.dpi).value, config.fmt)
  {
    var dir := outputDir.GetOr(DefaultOutputDir(path));
    if ValidationFault(path, fs) == None && MakedirsFault(fs, dir) == None && renderer.convert(path, config.dpi).Returned? {
      var count := renderer.convert(path, config.dpi).value;
      var names := ImageNames(dir, BaseFilename(path), count);
      RunSavesImages(config, path, outputDir, fs, renderer);
      SavingRunSucceeds(path, names, SaveFault(renderer, names, config.fmt),
                        FileResult(Success, path, SuccessMessage(count), names, Some(count), None), [MakeDirs(dir)]);
      NoSaveFaultIffAllSaved(renderer, dir, BaseFilename(path), count, config.fmt);
    }
  }

  /**
   * A successful run validated the input, rendered `count` images, saved every
   * one of them under the name `ImageName` gives, and reports exactly those,
   * in page order, with `count` as the page count.
   */
  lemma SuccessReportsEveryImage(config: Config, path: string, outputDir: Option<string>, fs: FileSystem, renderer: Renderer)
    requires ToPngRun(config, path, outputDir, fs, renderer).result.status == Success
    ensures ValidationFault(path, fs) == None
    ensures renderer.convert(path, config.dpi).Returned?
    ensures var run := ToPngRun(config, path, outputDir, fs, renderer);
      var count := renderer.convert(path, config.dpi).value;
      var dir := outputDir.GetOr(DefaultOutputDir(path));
      var base := BaseFilename(path);
      && |run.result.outputFiles| == count && run.result.pageCount == Some(count)
      && (forall i :: 1 <= i <= count ==> run.result.outputFiles[i - 1] == ImageName(dir, base, count, i))
      && run.effects == [MakeDirs(dir)] + Writes(run.result.outputFiles)
  {
    var run := ToPngRun(config, path, outputDir, fs, renderer);
    var count := renderer.convert(path, config.dpi).value;
    var names := ImageNames(outputDir.GetOr(DefaultOutputDir(path)), BaseFilename(path), count);
    var k := FirstFault(SaveFault(renderer, names, config.fmt), count);
    assert k == count;
  }

  /** A document rendered as one image, when saved, gives exactly `<base>.png` in the output directory. */
  lemma LoneImageIsNamedAfterInput(config: Config, path: string, outputDir: Option<string>, fs: FileSystem, renderer: Renderer)
    requires renderer.convert(path, config.dpi) == Returned(1)
    requires ToPngRun(config, path, outputDir, fs, renderer).result.status == Success
    ensures ToPngRun(config, path, outputDir, fs, renderer).result.outputFiles
         == [Join(outputDir.GetOr(DefaultOutputDir(path)), BaseFilename(path) + ".png")]
  {
    SuccessReportsEveryImage(config, path, outputDir, fs, renderer);
  }

  /** Otherwise no two images share a name, so no save overwrites another image of the same run. */
  lemma {:induction false} ImageNamesDistinct(dir: string, base: string, count: nat, i: nat, j: nat)
    requires count != 1 && 1 <= i < j <= count
    ensures ImageName(dir, base, count, i) != ImageName(dir, base, count, j)
  {
    var x := base + "_page_" + Decimal(i) + ".png";
    var y := base + "_page_" + Decimal(j) + ".png";
    assert x[0] == y[0] by {
      if base == [] {
        assert x[0] == '_' == y[0];
      } else {
        assert x[0] == base[0] == y[0];
      }
    }
    JoinSameWay(dir, x, y);
    if Join(dir, x) == Join(dir, y) {
      var p := JoinPrefix(dir, StartsWith(x, "/")) + base + "_page_";
      assert Join(dir, x) == p + Decimal(i) + ".png";
      assert Join(dir, y) == p + Decimal(j) + ".png";
      SameFrame(p, Decimal(i), Decimal(j), ".png");
      DecimalInjective(i, j);
    }
  }

  /** The configured format only reaches the save calls: it never changes which files are named. */
  lemma FormatDoesNotNameFiles(dpi: int, fmt1: string, fmt2: string, path: string, outputDir: Option<string>, fs: FileSystem, renderer: Renderer)
    requires ToPngRun(Config(dpi, fmt1), path, outputDir, fs, renderer).result.status == Success
    requires ToPngRun(Config(dpi, fmt2), path, outputDir, fs, renderer).result.status == Success
    ensures ToPngRun(Config(dpi, fmt1), path, outputDir, fs, renderer).result.outputFiles
         == ToPngRun(Config(dpi, fmt2), path, outputDir, fs, renderer).result.outputFiles
  {
    SuccessReportsEveryImage(Config(dpi, fmt1), path, outputDir, fs, renderer);
    SuccessReportsEveryImage(Config(dpi, fmt2), path, outputDir, fs, renderer);
  }

  /**
   * Unpadded numbers do not sort: from ten pages on, image 10 sorts before
   * image 2 as a string.
   */
  lemma TenthImageSortsBeforeSecond(dir: string, base: string, count: nat)
    requires count >= 10
    ensures LexLess(ImageName(dir, base, count, 10), ImageName(dir, base, count, 2))
  {
    var stem := base + "_page_";
    assert Decimal(10) == "10" && Decimal(2) == "2";
    assert base + "_page_" + Decimal(10) + ".png" == stem + "10.png";
    assert base + "_page_" + Decimal(2) + ".png" == stem + "2.png";
    JoinedNamesCompareByTail(dir, stem, "10.png", "2.png");
    assert LexLess("10.png", "2.png");
  }
}
