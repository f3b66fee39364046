/**
 * The split operation (`PDFSplitPagesProcessor`): an N-page document becomes
 * N one-page documents in a `<base>_pages` directory, numbered with
 * zero-padded page numbers so that their names sort in page order. The PDF
 * library appears only as what it reports: the page count, or a fault.
 */
module PdfSplitPages {
  import opened Wrappers
  import opened PyText
  import opened PyPath
  import opened BaseProcessor

  const OperationId := "pdf_split_pages"
  const Title := "拆分PDF为单页"
  const Subtitle := "将PDF文件拆分为多个单页PDF文件"
  const DocPage := "pdf_split_pages.html"

  /**
   * The PDF library: the number of pages of the opened document (or what
   * opening it raises), and what copying page p (from 0) into a new document
   * saved at a path raises, if anything.
   */
  datatype PdfLibrary = PdfLibrary(pageCount: string -> Attempt<nat>, savePage: (string, nat, string) -> Option<string>)

  /** `str(page).zfill(len(str(total)))`. */
  function PageNumber(page: nat, total: nat): string {
    ZFill(Decimal(page), |Decimal(total)|)
  }

  /** The directory the pages go to: `<dir>/<base>_pages`. */
  function SplitDir(dir: string, base: string): string {
    Join(dir, base + "_pages")
  }

  /** The file page `page` (from 1) of `total` is saved to. */
  function PageFile(splitDir: string, base: string, page: nat, total: nat): string {
    Join(splitDir, base + "_page_" + PageNumber(page, total) + ".pdf")
  }

  function PageFiles(splitDir: string, base: string, total: nat): (names: seq<string>)
    ensures |names| == total
  {
    seq(total, k requires 0 <= k < total => PageFile(splitDir, base, k + 1, total))
  }

  /** The fault of the k-th page save (from 0), for the loop over the pages. */
  function SaveFault(library: PdfLibrary, path: string, names: seq<string>): nat -> Option<string> {
    (k: nat) => if k < |names| then library.savePage(path, k, names[k]) else None
  }

  function SuccessMessage(pages: nat): string {
    "成功拆分为 " + Decimal(pages) + " 个单页文件"
  }

  function SuccessResult(path: string, names: seq<string>, splitDir: string): FileResult {
    FileResult(Success, path, SuccessMessage(|names|), names, Some(|names|), Some(splitDir))
  }

  /** `process_single`: validation, output directory, page directory, opening, then one save per page. */
  function SplitRun(path: string, outputDir: Option<string>, fs: FileSystem, library: PdfLibrary): Run {
    match ValidationFault(path, fs)
    case Some(fault) => Run(ErrorResult(path, fault), [])
    case None =>
      var (dirAttempt, effects) := OutputDir(path, outputDir, fs);
      match dirAttempt
      case Raised(fault) => Run(ErrorResult(path, fault), effects)
      case Returned(dir) =>
        var base := BaseFilename(path);
        var splitDir := SplitDir(dir, base);
        var effects := effects + [MakeDirs(splitDir)];
        match MakedirsFault(fs, splitDir)
        case Some(fault) => Run(ErrorResult(path, fault), effects)
        case None =>
          match library.pageCount(path)
          case Raised(fault) => Run(ErrorResult(path, fault), effects)
          case Returned(total) =>
            var names := PageFiles(splitDir, base, total);
            SavingRun(path, names, SaveFault(library, path, names), SuccessResult(path, names, splitDir), effects)
  }

  /** `PDFSplitPagesProcessor.process_single`. */
  method ProcessSingle(path: string, outputDir: Option<string>, fs: FileSystem, library: PdfLibrary) returns (run: Run)
    ensures run == SplitRun(path, outputDir, fs, library)
  {
    var invalid := ValidationFault(path, fs);
    if invalid.Some? {
      return Run(ErrorResult(path, invalid.value), []);
    }
    var (dirAttempt, effects) := OutputDir(path, outputDir, fs);
    if dirAttempt.Raised? {
      return Run(ErrorResult(path, dirAttempt.text), effects);
    }
    var base := BaseFilename(path);
    var splitDir := Join(dirAttempt.value, base + "_pages");
    effects := effects + [MakeDirs(splitDir)];
    var mkdirFault := MakedirsFault(fs, splitDir);
    if mkdirFault.Some? {
      return Run(ErrorResult(path, mkdirFault.value), effects);
    }
    var document := library.pageCount(path);
    if document.Raised? {
      return Run(ErrorResult(path, document.text), effects);
    }
    run := SavePages(path, splitDir, base, document.value, library, effects);
  }

  /** The loop of `process_single` over the pages: name each page file, save it, record it. */
  method SavePages(path: string, splitDir: string, base: string, total: nat, library: PdfLibrary, effects0: seq<Effect>)
    returns (run: Run)
    ensures var names := PageFiles(splitDir, base, total);
      run == SavingRun(path, names, SaveFault(library, path, names), SuccessResult(path, names, splitDir), effects0)
  {
    ghost var names := PageFiles(splitDir, base, total);
    ghost var fault := SaveFault(library, path, names);
    var effects := effects0;
    var outputFiles := [];
    for pageNum := 0 to total
      invariant outputFiles == names[..pageNum]
      invariant effects == effects0 + Writes(outputFiles)
      invariant forall j :: 0 <= j < pageNum ==> fault(j).None?
    {
      var pageNumber := ZFill(Decimal(pageNum + 1), |Decimal(total)|);
      var outputPath := Join(splitDir, base + "_page_" + pageNumber + ".pdf");
      assert outputPath == names[pageNum];
      var saveFault := library.savePage(path, pageNum, outputPath);
      effects := effects + [Write(outputPath)];
      if saveFault.Some? {
        assert fault(pageNum) == saveFault;
        assert FirstFault(fault, total) == pageNum;
        assert outputFiles + [outputPath] == names[..pageNum + 1];
        assert Writes(outputFiles) + [Write(outputPath)] == Writes(names[..pageNum + 1]);
        return Run(ErrorResult(path, saveFault.value), effects);
      }
      assert Writes(outputFiles) + [Write(outputPath)] == Writes(outputFiles + [outputPath]);
      outputFiles := outputFiles + [outputPath];
    }
    assert outputFiles == names;
    run := Run(SuccessResult(path, outputFiles, splitDir), effects);
  }

  // ---------------------------------------------------------------- properties

  /**
   * Page numbers are padded to the width of `str(total)`, that is to the w with
   * 10^(w-1) <= total < 10^w, and each still denotes its page.
   */
  lemma {:induction false} PageNumberWidth(page: nat, total: nat)
    requires 1 <= page <= total
    ensures |PageNumber(page, total)| == |Decimal(total)|
    ensures Pow10(|PageNumber(page, total)| - 1) <= total < Pow10(|PageNumber(page, total)|)
    ensures AllDigits(PageNumber(page, total)) && Value(PageNumber(page, total)) == page
  {
    DecimalLengthMonotone(page, total);
    DecimalDenotes(page);
    DecimalWidth(total);
    var d := Decimal(page);
    var w := |Decimal(total)|;
    if |d| < w {
      assert d[0] != '+' && d[0] != '-' by {
        assert IsDigit(d[0]);
      }
      assert PageNumber(page, total) == Zeros(w - |d|) + d;
      ValueLeadingZeros(w - |d|, d);
    }
  }

  /** Padded page numbers compare as strings exactly as the pages compare as numbers. */
  lemma PageNumbersSortNumerically(i: nat, j: nat, total: nat)
    requires 1 <= i <= total && 1 <= j <= total
    ensures LexLess(PageNumber(i, total), PageNumber(j, total)) <==> i < j
  {
    PageNumberWidth(i, total);
    PageNumberWidth(j, total);
    LexLessDigits(PageNumber(i, total), PageNumber(j, total));
  }

  /**
   * The page files, as strings, are in the same order as their pages: in the
   * list the split returns, an earlier file always sorts first, so the list is
   * sorted and has no repeats.
   */
  lemma PageFilesSortByPage(splitDir: string, base: string, total: nat, i: nat, j: nat)
    requires i < total && j < total
    ensures LexLess(PageFiles(splitDir, base, total)[i], PageFiles(splitDir, base, total)[j]) <==> i < j
  {
    PageNumberWidth(i + 1, total);
    PageNumberWidth(j + 1, total);
    JoinedNamesCompareByMiddle(splitDir, base + "_page_", PageNumber(i + 1, total), PageNumber(j + 1, total), ".pdf");
    PageNumbersSortNumerically(i + 1, j + 1, total);
  }

  /** An input that fails validation is reported as such, and no directory is created and no page written. */
  lemma ValidationComesFirst(path: string, outputDir: Option<string>, fs: FileSystem, library: PdfLibrary)
    requires ValidationFault(path, fs).Some?
    ensures var run := SplitRun(path, outputDir, fs, library);
      run.result == ErrorResult(path, ValidationFault(path, fs).value) && run.effects == []
  {
  }

  /** Every failure is an error record for the input with no output files. */
  lemma ErrorsReportNoOutputs(path: string, outputDir: Option<string>, fs: FileSystem, library: PdfLibrary)
    ensures var r := SplitRun(path, outputDir, fs, library).result;
      r.file == path && (r.status == Error ==> r.outputFiles == [] && r.pageCount == None)
  {
  }

  /** A fault creating the output directory is the run's error. */
  lemma MakedirsFaultIsError(path: string, outputDir: Option<string>, fs: FileSystem, library: PdfLibrary)
    requires ValidationFault(path, fs) == None
    requires MakedirsFault(fs, outputDir.GetOr(DefaultOutputDir(path))).Some?
    ensures SplitRun(path, outputDir, fs, library).result
         == ErrorResult(path, MakedirsFault(fs, outputDir.GetOr(DefaultOutputDir(path))).value)
  {
  }

  /** A fault creating the `<base>_pages` directory is the run's error, and the document is never opened. */
  lemma SplitDirFaultIsError(path: string, outputDir: Option<string>, fs: FileSystem, library: PdfLibrary)
    requires ValidationFault(path, fs) == None
    requires MakedirsFault(fs, outputDir.GetOr(DefaultOutputDir(path))) == None
    requires MakedirsFault(fs, SplitDir(outputDir.GetOr(DefaultOutputDir(path)), BaseFilename(path))).Some?
    ensures var run := SplitRun(path, outputDir, fs, library);
      var dir := outputDir.GetOr(DefaultOutputDir(path));
      var splitDir := SplitDir(dir, BaseFilename(path));
      run.result == ErrorResult(path, MakedirsFault(fs, splitDir).value)
      && run.effects == [MakeDirs(dir), MakeDirs(splitDir)]
  {
  }

  /** A fault of `fitz.open` is the run's error, after both directories were created and before any page is written. */
  lemma OpenFaultIsError(path: string, outputDir: Option<string>, fs: FileSystem, library: PdfLibrary)
    requires ValidationFault(path, fs) == None
    requires MakedirsFault(fs, outputDir.GetOr(DefaultOutputDir(path))) == None
    requires MakedirsFault(fs, SplitDir(outputDir.GetOr(DefaultOutputDir(path)), BaseFilename(path))) == None
    requires library.pageCount(path).Raised?
    ensures var run := SplitRun(path, outputDir, fs, library);
      var dir := outputDir.GetOr(DefaultOutputDir(path));
      run.result == ErrorResult(path, library.pageCount(path).text)
      && run.effects == [MakeDirs(dir), MakeDirs(SplitDir(dir, BaseFilename(path)))]
  {
  }

  /** Page i (from 1) of `total` is copied and saved without a fault, for every i. */
  predicate AllPagesSaved(library: PdfLibrary, path: string, splitDir: string, base: string, total: nat) {
    forall i :: 1 <= i <= total ==> library.savePage(path, i - 1, PageFile(splitDir, base, i, total)) == None
  }

  /** Past validation, both directories and opening, the run is the saving of the page files. */
  lemma RunSavesPages(path: string, outputDir: Option<string>, fs: FileSystem, library: PdfLibrary)
    requires ValidationFault(path, fs) == None
    requires MakedirsFault(fs, outputDir.GetOr(DefaultOutputDir(path))) == None
    requires MakedirsFault(fs, SplitDir(outputDir.GetOr(DefaultOutputDir(path)), BaseFilename(path))) == None
    requires library.pageCount(path).Returned?
    ensures var dir := outputDir.GetOr(DefaultOutputDir(path));
      var splitDir, total := SplitDir(dir, BaseFilename(path)), library.pageCount(path).value;
      var names := PageFiles(splitDir, BaseFilename(path), total);
      SplitRun(path, outputDir, fs, library)
        == SavingRun(path, names, SaveFault(library, path, names), SuccessResult(path, names, splitDir), [MakeDirs(dir), MakeDirs(splitDir)])
  {
  }

  /** Save q of the loop (from 0) is the save of page q under the name of page q + 1. */
  lemma SaveFaultOfPage(library: PdfLibrary, path: string, splitDir: string, base: string, total: nat, q: nat)
    requires q < total
    ensures SaveFault(library, path, PageFiles(splitDir, base, total))(q) == library.savePage(path, q, PageFile(splitDir, base, q + 1, total))
  {
  }

  /**
   * When page p (from 0) is the first whose save raises, the run's error is
   * that fault, and the page files up to and including p's were written.
   */
  lemma SaveFaultIsError(path: string, outputDir: Option<string>, fs: FileSystem, library: PdfLibrary, p: nat)
    requires ValidationFault(path, fs) == None
    requires MakedirsFault(fs, outputDir.GetOr(DefaultOutputDir(path))) == None
    requires MakedirsFault(fs, SplitDir(outputDir.GetOr(DefaultOutputDir(path)), BaseFilename(path))) == None
    requires library.pageCount(path).Returned? && p < library.pageCount(path).value
    requires var splitDir, total := SplitDir(outputDir.GetOr(DefaultOutputDir(path)), BaseFilename(path)), library.pageCount(path).value;
      && library.savePage(path, p, PageFile(splitDir, BaseFilename(path), p + 1, total)).Some?
      && forall i :: 1 <= i <= p ==> library.savePage(path, i - 1, PageFile(splitDir, BaseFilename(path), i, total)) == None
    ensures var run := SplitRun(path, outputDir, fs, library);
      var dir := outputDir.GetOr(DefaultOutputDir(path));
      var splitDir, total := SplitDir(dir, BaseFilename(path)), library.pageCount(path).value;
      && run.result == ErrorResult(path, library.savePage(path, p, PageFile(splitDir, BaseFilename(path), p + 1, total)).value)
      && run.effects == [MakeDirs(dir), MakeDirs(splitDir)] + Writes(PageFiles(splitDir, BaseFilename(path), total)[..p + 1])
  {
    var dir := outputDir.GetOr(DefaultOutputDir(path));
    var base := BaseFilename(path);
    var splitDir, total := SplitDir(dir, base), library.pageCount(path).value;
    var names := PageFiles(splitDir, base, total);
    var fault := SaveFault(library, path, names);
    forall q | 0 <= q < p ensures fault(q).None? {
      SaveFaultOfPage(library, path, splitDir, base, total, q);
      assert library.savePage(path, q, PageFile(splitDir, base, q + 1, total)) == None;
    }
    SaveFaultOfPage(library, path, splitDir, base, total, p);
    RunSavesPages(path, outputDir, fs, library);
    SavingRunFault(path, names, fault, SuccessResult(path, names, splitDir), [MakeDirs(dir), MakeDirs(splitDir)], p);
  }

  /** No save of the loop raises exactly when every page saves. */
  lemma NoSaveFaultIffAllPagesSaved(library: PdfLibrary, path: string, splitDir: string, base: string, total: nat)
    ensures (forall q :: 0 <= q < total ==> SaveFault(library, path, PageFiles(splitDir, base, total))(q).None?)
        <==> AllPagesSaved(library, path, splitDir, base, total)
  {
    var fault := SaveFault(library, path, PageFiles(splitDir, base, total));
    if AllPagesSaved(library, path, splitDir, base, total) {
      forall q | 0 <= q < total ensures fault(q).None? {
        SaveFaultOfPage(library, path, splitDir, base, total, q);
        assert library.savePage(path, q, PageFile(splitDir, base, q + 1, total)) == None;
      }
    }
    if forall q :: 0 <= q < total ==> fault(q).None? {
      forall i | 1 <= i <= total ensures library.savePage(path, i - 1, PageFile(splitDir, base, i, total)) == None {
        SaveFaultOfPage(library, path, splitDir, base, total, i - 1);
      }
    }
  }

  /**
   * The split succeeds exactly when nothing raises: the input is valid, both
   * directories are created, the document opens, and every page saves.
   */
  lemma SucceedsIffNoFault(path: string, outputDir: Option<string>, fs: FileSystem, library: PdfLibrary)
    ensures SplitRun(path, outputDir, fs, library).result.status == Success
        <==> && ValidationFault(path, fs) == None
             && MakedirsFault(fs, outputDir.GetOr(DefaultOutputDir(path))) == None
             && MakedirsFault(fs, SplitDir(outputDir.GetOr(DefaultOutputDir(path)), BaseFilename(path))) == None
             && library.pageCount(path).Returned?
             && AllPagesSaved(library, path, SplitDir(outputDir.GetOr(DefaultOutputDir(path)), BaseFilename(path)),
                              BaseFilename(path), library.pageCount(path).value)
  {
    var dir := outputDir.GetOr(DefaultOutputDir(path));
    var splitDir := SplitDir(dir, BaseFilename(path));
    if && ValidationFault(path, fs) == None && MakedirsFault(fs, dir) == None && MakedirsFault(fs, splitDir) == None
       && library.pageCount(path).Returned? {
      var total := library.pageCount(path).value;
      var names := PageFiles(splitDir, BaseFilename(path), total);
      RunSavesPages(path, outputDir, fs, library);
      SavingRunSucceeds(path, names, SaveFault(library, path, names), SuccessResult(path, names, splitDir), [MakeDirs(dir), MakeDirs(splitDir)]);
      NoSaveFaultIffAllPagesSaved(library, path, splitDir, BaseFilename(path), total);
    }
  }

  /**
   * A successful split of a `total`-page document reports `total` files, the
   * page files in page order inside `<dir>/<base>_pages`, which it reports as
   * its output directory; it created the output and page directories and then
   * wrote exactly the files it reports.
   */
  lemma SuccessReportsEveryPage(path: string, outputDir: Option<string>, fs: FileSystem, library: PdfLibrary)
    requires SplitRun(path, outputDir, fs, library).result.status == Success
    ensures ValidationFault(path, fs) == None
    ensures library.pageCount(path).Returned?
    ensures var run := SplitRun(path, outputDir, fs, library);
      var total := library.pageCount(path).value;
      var dir := outputDir.GetOr(DefaultOutputDir(path));
      var base := BaseFilename(path);
      var splitDir := Join(dir, base + "_pages");
      && |run.result.outputFiles| == total && run.result.pageCount == Some(total)
      && run.result.outputDir == Some(splitDir)
      && (forall i :: 1 <= i <= total ==> run.result.outputFiles[i - 1] == PageFile(splitDir, base, i, total))
      && run.effects == [MakeDirs(dir), MakeDirs(splitDir)] + Writes(run.result.outputFiles)
  {
    var total := library.pageCount(path).value;
    var dir := outputDir.GetOr(DefaultOutputDir(path));
    var splitDir := SplitDir(dir, BaseFilename(path));
    var names := PageFiles(splitDir, BaseFilename(path), total);
    assert FirstFault(SaveFault(library, path, names), total) == total;
  }

  /** A document without pages splits successfully into nothing. */
  lemma EmptyDocumentSplitsIntoNothing(path: string, outputDir: Option<string>, fs: FileSystem, library: PdfLibrary)
    requires ValidationFault(path, fs) == None
    requires MakedirsFault(fs, outputDir.GetOr(DefaultOutputDir(path))) == None
    requires MakedirsFault(fs, SplitDir(outputDir.GetOr(DefaultOutputDir(path)), BaseFilename(path))) == None
    requires library.pageCount(path) == Returned(0)
    ensures var r := SplitRun(path, outputDir, fs, library).result;
      r.status == Success && r.outputFiles == [] && r.pageCount == Some(0)
  {
  }
}
