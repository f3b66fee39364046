/**
 * The launcher entry point: the registry from operation ids to processor
 * classes, the filtered list of operations shown to the user, and the
 * processing mode that runs one operation over a list of files and writes a
 * summary with at most three output files per result. What the launcher
 * displays is modelled as the items it is given and the chunks written to
 * standard error.
 */
module Workflow {
  import opened Wrappers
  import opened PyText
  import opened PyPath
  import opened BaseProcessor
  import PdfToPng
  import PdfCropMargins
  import PdfSplitPages

  // ------------------------------------------------------------------ registry

  /** The processor classes the entry point knows. */
  datatype OperationClass = ToPngClass | CropMarginsClass | SplitPagesClass

  /** `PROCESSOR_CLASSES`, in order. */
  const ProcessorClasses: seq<OperationClass> := [ToPngClass, CropMarginsClass, SplitPagesClass]

  function OperationIdOf(c: OperationClass): string {
    match c
    case ToPngClass => PdfToPng.OperationId
    case CropMarginsClass => PdfCropMargins.OperationId
    case SplitPagesClass => PdfSplitPages.OperationId
  }

  function TitleOf(c: OperationClass): string {
    match c
    case ToPngClass => PdfToPng.Title
    case CropMarginsClass => PdfCropMargins.Title
    case SplitPagesClass => PdfSplitPages.Title
  }

  function SubtitleOf(c: OperationClass): string {
    match c
    case ToPngClass => PdfToPng.Subtitle
    case CropMarginsClass => PdfCropMargins.Subtitle
    case SplitPagesClass => PdfSplitPages.Subtitle
  }

  function DocPageOf(c: OperationClass): string {
    match c
    case ToPngClass => PdfToPng.DocPage
    case CropMarginsClass => PdfCropMargins.DocPage
    case SplitPagesClass => PdfSplitPages.DocPage
  }

  /** A Python dict as its items in insertion order. */
  type Registry = seq<(string, OperationClass)>

  function Keys(entries: Registry): (keys: seq<string>)
    ensures |keys| == |entries| && forall i :: 0 <= i < |entries| ==> keys[i] == entries[i].0
  {
    seq(|entries|, i requires 0 <= i < |entries| => entries[i].0)
  }

  /** `d[key] = value`: a present key keeps its place and takes the new value; a new key goes last. */
  function Assign(entries: Registry, key: string, value: OperationClass): Registry
    decreases |entries|
  {
    if entries == [] then [(key, value)]
    else if entries[0].0 == key then [(key, value)] + entries[1..]
    else [entries[0]] + Assign(entries[1..], key, value)
  }

  /** The dict comprehension `{c.operation_id: c for c in classes}`. */
  function BuildRegistry(classes: seq<OperationClass>): Registry
    decreases |classes|
  {
    if classes == [] then []
    else
      var last := classes[|classes| - 1];
      Assign(BuildRegistry(classes[..|classes| - 1]), OperationIdOf(last), last)
  }

  /** `PDF_OPERATIONS`. */
  function Operations(): Registry {
    BuildRegistry(ProcessorClasses)
  }

  /** `registry[key]` when `key in registry`, else None. */
  function Lookup(entries: Registry, key: string): (r: Option<OperationClass>)
    ensures r.Some? <==> key in Keys(entries)
    ensures r.Some? ==> (key, r.value) in entries
    decreases |entries|
  {
    if entries == [] then None
    else if entries[0].0 == key then Some(entries[0].1)
    else
      assert Keys(entries) == [entries[0].0] + Keys(entries[1..]);
      Lookup(entries[1..], key)
  }

  /** Assigning a key not yet present appends it. */
  lemma {:induction false} AssignNewKey(entries: Registry, key: string, value: OperationClass)
    requires key !in Keys(entries)
    ensures Assign(entries, key, value) == entries + [(key, value)]
    decreases |entries|
  {
    if entries != [] {
      assert entries[0].0 == Keys(entries)[0];
      assert Keys(entries[1..]) == Keys(entries)[1..];
      AssignNewKey(entries[1..], key, value);
      assert entries == [entries[0]] + entries[1..];
    }
  }

  predicate DistinctIds(classes: seq<OperationClass>) {
    forall i, j :: 0 <= i < j < |classes| ==> OperationIdOf(classes[i]) != OperationIdOf(classes[j])
  }

  /** One entry per class, in class order, each under its own id. */
  function EntriesOf(classes: seq<OperationClass>): (entries: Registry)
    ensures |entries| == |classes|
    ensures forall i :: 0 <= i < |classes| ==> entries[i] == (OperationIdOf(classes[i]), classes[i])
  {
    seq(|classes|, i requires 0 <= i < |classes| => (OperationIdOf(classes[i]), classes[i]))
  }

  /** Classes with distinct ids give one entry per class, in class order, each under its own id. */
  lemma {:induction false} RegistryOfDistinctIds(classes: seq<OperationClass>)
    requires DistinctIds(classes)
    ensures BuildRegistry(classes) == EntriesOf(classes)
    decreases |classes|
  {
    if classes != [] {
      var n := |classes| - 1;
      var init := classes[..n];
      var c := classes[n];
      DistinctIdsPrefix(classes);
      RegistryOfDistinctIds(init);
      FreshIdOfLast(classes);
      AssignNewKey(EntriesOf(init), OperationIdOf(c), c);
      EntriesOfSnoc(classes);
    }
  }

  lemma DistinctIdsPrefix(classes: seq<OperationClass>)
    requires DistinctIds(classes) && classes != []
    ensures DistinctIds(classes[..|classes| - 1])
  {
    var init := classes[..|classes| - 1];
    forall i, j | 0 <= i < j < |init| ensures OperationIdOf(init[i]) != OperationIdOf(init[j]) {
      assert init[i] == classes[i] && init[j] == classes[j];
    }
  }

  /** The id of the last class is not among those of the classes before it. */
  lemma FreshIdOfLast(classes: seq<OperationClass>)
    requires DistinctIds(classes) && classes != []
    ensures OperationIdOf(classes[|classes| - 1]) !in Keys(EntriesOf(classes[..|classes| - 1]))
  {
    var n := |classes| - 1;
    var keys := Keys(EntriesOf(classes[..n]));
    forall i | 0 <= i < n ensures keys[i] != OperationIdOf(classes[n]) {
      assert keys[i] == OperationIdOf(classes[i]);
    }
  }

  lemma EntriesOfSnoc(classes: seq<OperationClass>)
    requires classes != []
    ensures var n := |classes| - 1;
      EntriesOf(classes) == EntriesOf(classes[..n]) + [(OperationIdOf(classes[n]), classes[n])]
  {
    var n := |classes| - 1;
    var r := EntriesOf(classes[..n]) + [(OperationIdOf(classes[n]), classes[n])];
    assert |EntriesOf(classes)| == |r|;
    forall i | 0 <= i < |r| ensures EntriesOf(classes)[i] == r[i] {
      if i < n {
        assert classes[..n][i] == classes[i];
      }
    }
  }

  /** `PDF_OPERATIONS` as its items. */
  lemma OperationsEntries()
    ensures Operations() == [(PdfToPng.OperationId, ToPngClass), (PdfCropMargins.OperationId, CropMarginsClass),
                             (PdfSplitPages.OperationId, SplitPagesClass)]
  {
    assert DistinctIds(ProcessorClasses) by {
      assert OperationIdOf(ProcessorClasses[0]) == "pdf_to_png";
      assert OperationIdOf(ProcessorClasses[1]) == "pdf_crop_margins";
      assert OperationIdOf(ProcessorClasses[2]) == "pdf_split_pages";
    }
    RegistryOfDistinctIds(ProcessorClasses);
    var e := EntriesOf(ProcessorClasses);
    assert e[0] == (PdfToPng.OperationId, ToPngClass);
    assert e[1] == (PdfCropMargins.OperationId, CropMarginsClass);
    assert e[2] == (PdfSplitPages.OperationId, SplitPagesClass);
  }

  /**
   * `PDF_OPERATIONS` maps each of the three ids, in class order, to the class
   * that declares it, and holds nothing else; a key is found exactly when it
   * is one of the three ids, and then it gives its own class.
   */
  lemma OperationsRegistry(key: string)
    ensures Keys(Operations()) == [PdfToPng.OperationId, PdfCropMargins.OperationId, PdfSplitPages.OperationId]
    ensures forall c :: Lookup(Operations(), OperationIdOf(c)) == Some(c)
    ensures Lookup(Operations(), key).Some? <==> key in Keys(Operations())
    ensures Lookup(Operations(), key).Some? ==> OperationIdOf(Lookup(Operations(), key).value) == key
  {
    OperationsEntries();
    var e := Operations();
    assert Keys(e) == [e[0].0, e[1].0, e[2].0];
    forall c ensures Lookup(e, OperationIdOf(c)) == Some(c) {
      LookupRegistered(c);
    }
    assert forall i :: 0 <= i < |e| ==> OperationIdOf(e[i].1) == e[i].0;
  }

  /** Each class is found under its own id. */
  lemma LookupRegistered(c: OperationClass)
    ensures Lookup(Operations(), OperationIdOf(c)) == Some(c)
  {
    OperationsEntries();
    var e := Operations();
    match c {
      case ToPngClass =>
        assert e[0] == (OperationIdOf(c), c);
      case CropMarginsClass =>
        assert e[0].0 != OperationIdOf(c) && e[1] == (OperationIdOf(c), c);
      case SplitPagesClass =>
        assert e[0].0 != OperationIdOf(c) && e[1].0 != OperationIdOf(c) && e[2] == (OperationIdOf(c), c);
    }
  }

  // ------------------------------------------------------------------- listing

  /** One launcher item: title, subtitle, the argument passed on, validity and quick-look path. */
  datatype Item = Item(title: string, subtitle: string, arg: string, valid: bool, quicklookUrl: Option<string>)

  /**
   * Where the listing looks: the package directory the processors live in
   * (`os.path.dirname(__file__)`), `os.path.abspath` relative to the current
   * directory, and the file system.
   */
  datatype ListingEnv = ListingEnv(packageDir: string, absPath: string -> string, fs: FileSystem)

  /** `os.path.join(os.path.dirname(__file__), '../docs', '<page>.html')`. */
  function QuicklookPath(c: OperationClass, packageDir: string): (url: string)
    ensures url == Join(packageDir, "../docs") + "/" + DocPageOf(c)
    ensures StartsWith(url, packageDir) && EndsWith(url, "../docs/" + DocPageOf(c))
  {
    assert DocPageOf(c)[0] == 'p';
    DocsPage(packageDir, DocPageOf(c));
    Join(Join(packageDir, "../docs"), DocPageOf(c))
  }

  /** A relative page joined under `<packageDir>/../docs` gets exactly one separator and stays under `packageDir`. */
  lemma DocsPage(packageDir: string, page: string)
    requires page != [] && page[0] != '/'
    ensures var url := Join(Join(packageDir, "../docs"), page);
      && url == Join(packageDir, "../docs") + "/" + page
      && StartsWith(url, packageDir) && EndsWith(url, "../docs/" + page)
  {
    var docs := Join(packageDir, "../docs");
    assert !StartsWith("../docs", "/") by {
      assert "../docs"[0] == '.';
    }
    assert !StartsWith(page, "/");
    if packageDir == [] || EndsWith(packageDir, "/") {
      assert docs == packageDir + "../docs";
    } else {
      assert docs == packageDir + "/" + "../docs";
    }
    assert docs != [] && docs[|docs| - 1] == 's';
    var url := Join(docs, page);
    assert url == docs + "/" + page;
    assert url[..|packageDir|] == docs[..|packageDir|];
    assert url[|url| - |"../docs/" + page|..] == docs[|docs| - 7..] + "/" + page;
  }

  /** The quick-look path of an item: the absolute documentation path when that file exists. */
  function Quicklook(c: OperationClass, env: ListingEnv): Option<string> {
    var url := QuicklookPath(c, env.packageDir);
    if url != "" then
      var path := env.absPath(url);
      if env.fs.pathExists(path) then Some(path) else None
    else None
  }

  /** The item added for a registry entry. */
  function ItemFor(entry: (string, OperationClass), env: ListingEnv): Item {
    Item(TitleOf(entry.1), SubtitleOf(entry.1), entry.0, true, Quicklook(entry.1, env))
  }

  /** The filter of `list_operations`: an empty query shows everything, else a case-insensitive substring match on the title. */
  predicate Listed(query: string, title: string) {
    query == "" || Contains(Lower(title), Lower(query))
  }

  /** The items `list_operations` adds for `entries`, in order. */
  function ListedItems(entries: Registry, query: string, env: ListingEnv): seq<Item>
    decreases |entries|
  {
    if entries == [] then []
    else
      var last := entries[|entries| - 1];
      var before := ListedItems(entries[..|entries| - 1], query, env);
      if Listed(query, TitleOf(last.1)) then before + [ItemFor(last, env)] else before
  }

  /** `list_operations(query)`: the items added to the launcher output. */
  method ListOperations(entries: Registry, query: string, env: ListingEnv) returns (items: seq<Item>)
    ensures items == ListedItems(entries, query, env)
  {
    items := [];
    for i := 0 to |entries|
      invariant items == ListedItems(entries[..i], query, env)
    {
      assert entries[..i + 1][..i] == entries[..i];
      var (operationId, processorClass) := entries[i];
      if query != "" && !Contains(Lower(TitleOf(processorClass)), Lower(query)) {
        continue;
      }
      var quicklookUrl := None;
      var url := QuicklookPath(processorClass, env.packageDir);
      if url != "" {
        var quicklookPath := env.absPath(url);
        if env.fs.pathExists(quicklookPath) {
          quicklookUrl := Some(quicklookPath);
        }
      }
      items := items + [Item(TitleOf(processorClass), SubtitleOf(processorClass), operationId, true, quicklookUrl)];
    }
    assert entries[..|entries|] == entries;
  }

  /** The item of each entry, in order. */
  function ItemsOf(entries: Registry, env: ListingEnv): (items: seq<Item>)
    ensures |items| == |entries|
    decreases |entries|
  {
    if entries == [] then [] else ItemsOf(entries[..|entries| - 1], env) + [ItemFor(entries[|entries| - 1], env)]
  }

  /** An empty query lists every entry, in registry order. */
  lemma {:induction false} EmptyQueryListsAll(entries: Registry, env: ListingEnv)
    ensures ListedItems(entries, "", env) == ItemsOf(entries, env)
    decreases |entries|
  {
    if entries != [] {
      EmptyQueryListsAll(entries[..|entries| - 1], env);
    }
  }

  /** An entry's item is listed exactly when the query is empty or, ignoring case, occurs in its title. */
  lemma ListedIffTitleMatches(entries: Registry, query: string, env: ListingEnv, e: (string, OperationClass))
    requires e in entries
    ensures ItemFor(e, env) in ListedItems(entries, query, env) <==> Listed(query, TitleOf(e.1))
  {
    if ItemFor(e, env) in ListedItems(entries, query, env) {
      ListedOnlyIfMatches(entries, query, env, ItemFor(e, env));
    }
    if Listed(query, TitleOf(e.1)) {
      ListedIfMatches(entries, query, env, e);
    }
  }

  /** The item of an entry whose title matches is listed. */
  lemma {:induction false} ListedIfMatches(entries: Registry, query: string, env: ListingEnv, e: (string, OperationClass))
    requires e in entries && Listed(query, TitleOf(e.1))
    ensures ItemFor(e, env) in ListedItems(entries, query, env)
    decreases |entries|
  {
    var n := |entries| - 1;
    if e != entries[n] {
      assert e in entries[..n] by {
        var k :| 0 <= k < |entries| && entries[k] == e;
        assert entries[..n][k] == e;
      }
      ListedIfMatches(entries[..n], query, env, e);
    }
  }

  /** The query "png" matches the rasterize title "PDF转PNG图片" despite its case, and no other title. */
  lemma PngQueryListsRasterizeOnly(env: ListingEnv)
    ensures ListedItems(Operations(), "png", env) == [ItemFor((PdfToPng.OperationId, ToPngClass), env)]
  {
    OperationsEntries();
    var e := Operations();
    PngMatchesTitles();
    assert ListedItems(e[..1], "png", env) == [ItemFor(e[0], env)] by {
      assert e[..1][..0] == [];
    }
    assert ListedItems(e[..2], "png", env) == [ItemFor(e[0], env)] by {
      assert e[..2][..1] == e[..1] && e[..2][1] == e[1];
    }
    assert e[..2] == e[..|e| - 1];
  }

  /** Of the three titles, only the rasterize one contains "png" in some letter case. */
  lemma PngMatchesTitles()
    ensures Listed("png", TitleOf(ToPngClass))
    ensures !Listed("png", TitleOf(CropMarginsClass)) && !Listed("png", TitleOf(SplitPagesClass))
  {
    assert Lower("png") == "png";
    assert Lower(PdfToPng.Title)[4..7] == "png";
    assert OccursAt(Lower(PdfToPng.Title), "png", 4);
    NoAsciiLetters(PdfCropMargins.Title, "png", 1);
    NoAsciiLetters(PdfSplitPages.Title, "png", 1);
  }

  /** A title in which some letter of the query occurs in neither case does not match it. */
  lemma NoAsciiLetters(title: string, query: string, k: nat)
    requires k < |query| && 'a' <= query[k] <= 'z'
    requires forall i :: 0 <= i < |title| ==> title[i] != query[k] && title[i] != (query[k] as int - 32) as char
    ensures !Contains(Lower(title), query)
  {
    var t := Lower(title);
    forall i | 0 <= i <= |t| ensures !OccursAt(t, query, i) {
      if i + k < |t| {
        assert t[i + k] != query[k];
      }
    }
  }

  /** Everything listed is the item of an entry whose title matches the query. */
  lemma {:induction false} ListedOnlyIfMatches(entries: Registry, query: string, env: ListingEnv, item: Item)
    requires item in ListedItems(entries, query, env)
    ensures Listed(query, item.title)
    decreases |entries|
  {
    var n := |entries| - 1;
    var before := ListedItems(entries[..n], query, env);
    if item in before {
      ListedOnlyIfMatches(entries[..n], query, env, item);
    } else {
      assert item == ItemFor(entries[n], env);
    }
  }

  /** Every item is valid, and a quick-look path is attached only when that documentation file exists. */
  lemma {:induction false} ItemsLinkExistingDocs(entries: Registry, query: string, env: ListingEnv)
    ensures forall item :: item in ListedItems(entries, query, env) ==>
      item.valid && (item.quicklookUrl.Some? ==> env.fs.pathExists(item.quicklookUrl.value))
    decreases |entries|
  {
    if entries != [] {
      ItemsLinkExistingDocs(entries[..|entries| - 1], query, env);
    }
  }

  /** The quick-look path of an item is the absolute documentation path exactly when that file exists. */
  lemma QuicklookWhenPresent(c: OperationClass, env: ListingEnv)
    ensures var path := env.absPath(QuicklookPath(c, env.packageDir));
      Quicklook(c, env) == (if env.fs.pathExists(path) then Some(path) else None)
  {
  }

  // ------------------------------------------------------------------ processing

  /** What processing sees of the world: the file system, the imaging libraries, the PDF library and the crop tools. */
  datatype Host = Host(
    fs: FileSystem,
    renderer: PdfToPng.Renderer,
    library: PdfSplitPages.PdfLibrary,
    tools: PdfCropMargins.CropTools)

  /** `processor_class().process_single(path, output_dir)`, each class built with its defaults. */
  function RunSingle(c: OperationClass, host: Host, path: string, outputDir: Option<string>): Run {
    match c
    case ToPngClass => PdfToPng.ToPngRun(PdfToPng.DefaultConfig, path, outputDir, host.fs, host.renderer)
    case CropMarginsClass => PdfCropMargins.CropRun(PdfCropMargins.DefaultConfig, path, outputDir, host.fs, host.tools)
    case SplitPagesClass => PdfSplitPages.SplitRun(path, outputDir, host.fs, host.library)
  }

  /** The per-file step `process_multiple` runs for a class; each `process_single` returns rather than raises. */
  function Step(c: OperationClass, host: Host): (string, Option<string>) -> Attempt<FileResult> {
    (path: string, outputDir: Option<string>) => Returned(RunSingle(c, host, path, outputDir).result)
  }

  /** `sum(1 for r in results if r['status'] == 'success')`. */
  function SuccessCount(results: seq<FileResult>): (n: nat)
    ensures n <= |results|
    decreases |results|
  {
    if results == [] then 0
    else SuccessCount(results[..|results| - 1]) + (if results[|results| - 1].status == Success then 1 else 0)
  }

  /** The results whose status is not success. */
  function Failures(results: seq<FileResult>): seq<FileResult>
    decreases |results|
  {
    if results == [] then []
    else
      var before := Failures(results[..|results| - 1]);
      if results[|results| - 1].status != Success then before + [results[|results| - 1]] else before
  }

  /**
   * `error_count = len(results) - success_count` counts exactly the results
   * that are not successes, and it is 0 exactly when every result succeeded.
   */
  lemma {:induction false} ErrorCountCountsFailures(results: seq<FileResult>)
    ensures |results| - SuccessCount(results) == |Failures(results)|
    ensures forall r :: r in Failures(results) <==> r in results && r.status != Success
    ensures |Failures(results)| == 0 <==> forall i :: 0 <= i < |results| ==> results[i].status == Success
    decreases |results|
  {
    if results != [] {
      var n := |results| - 1;
      ErrorCountCountsFailures(results[..n]);
      assert results == results[..n] + [results[n]];
      if |Failures(results)| == 0 {
        forall i | 0 <= i < |results| ensures results[i].status == Success {
          if i < n {
            assert results[i] == results[..n][i];
          }
        }
      }
    }
  }

  /** The summary line. */
  function SummaryMessage(successCount: nat, errorCount: nat): string {
    if errorCount == 0 then "✓ 成功处理 " + Decimal(successCount) + " 个文件"
    else "⚠ 成功 " + Decimal(successCount) + " 个，失败 " + Decimal(errorCount) + " 个"
  }

  const MaxShown := 3

  /** The output files shown for a result: the first three at most. */
  function Shown(outputFiles: seq<string>): seq<string> {
    if |outputFiles| <= MaxShown then outputFiles else outputFiles[..MaxShown]
  }

  /** The count of output files not shown, when there are any. */
  function Hidden(outputFiles: seq<string>): Option<nat> {
    if |outputFiles| > MaxShown then Some(|outputFiles| - MaxShown) else None
  }

  /**
   * At most three files are shown, they are the first ones, and the shown
   * files plus the count reported as hidden are all of them; a count is
   * reported exactly when something is hidden.
   */
  lemma ShownAndHiddenCoverAll(outputFiles: seq<string>)
    ensures var shown := Shown(outputFiles);
      |shown| <= MaxShown && shown == outputFiles[..|shown|]
      && |shown| + Hidden(outputFiles).GetOr(0) == |outputFiles|
      && (Hidden(outputFiles).Some? <==> |shown| < |outputFiles|)
  {
  }

  function ArrowLine(outFile: string): string {
    "    → " + outFile + "\n"
  }

  function HiddenLine(hidden: nat): string {
    "    ... 和其他 " + Decimal(hidden) + " 个文件\n"
  }

  function ArrowLines(outputFiles: seq<string>): (lines: seq<string>)
    ensures |lines| == |outputFiles| && forall i :: 0 <= i < |outputFiles| ==> lines[i] == ArrowLine(outputFiles[i])
  {
    seq(|outputFiles|, i requires 0 <= i < |outputFiles| => ArrowLine(outputFiles[i]))
  }

  /** What is written for one result. */
  function ResultLines(r: FileResult): seq<string> {
    if r.status == Success then
      ["  ✓ " + r.file + ": " + r.message + "\n"]
      + (if r.outputFiles != [] then
           ArrowLines(Shown(r.outputFiles))
           + (match Hidden(r.outputFiles) case Some(k) => [HiddenLine(k)] case None => [])
         else [])
    else ["  ✗ " + r.file + ": " + r.message + "\n"]
  }

  /** What is written for all results, in order. */
  function DetailLines(results: seq<FileResult>): seq<string>
    decreases |results|
  {
    if results == [] then []
    else DetailLines(results[..|results| - 1]) + ResultLines(results[|results| - 1])
  }

  /**
   * A success with n > 0 output files writes one header line, an arrow line
   * for each of the first min(n, 3) files in order, and, when n > 3, one line
   * with the n - 3 files left out; a failure writes its one line.
   */
  lemma ResultLinesTruncate(r: FileResult)
    ensures r.status != Success ==> |ResultLines(r)| == 1
    ensures r.status == Success && r.outputFiles != [] ==>
      var n := |r.outputFiles|;
      var lines := ResultLines(r);
      var shown := if n <= MaxShown then n else MaxShown;
      && |lines| == 1 + shown + (if n > MaxShown then 1 else 0)
      && (forall i :: 0 <= i < shown ==> lines[1 + i] == ArrowLine(r.outputFiles[i]))
      && (n > MaxShown ==> lines[|lines| - 1] == HiddenLine(n - MaxShown))
  {
  }

  /** The end of a call of the entry point: exit status, launcher items, chunks written to stderr, and the results. */
  datatype Outcome = Outcome(exitCode: int, items: seq<Item>, stderr: seq<string>, results: seq<FileResult>)

  const UnknownOperationPrefix := "错误: 未知操作: "

  /** `process_files(operation, pdf_files)`: dispatch, batch, count, summarize. */
  function ProcessFilesRun(operation: string, pdfFiles: seq<string>, host: Host): Outcome {
    match Lookup(Operations(), operation)
    case None => Outcome(1, [], [UnknownOperationPrefix + operation + "\n"], [])
    case Some(c) => ProcessKnown(c, pdfFiles, host)
  }

  /** The outcome once the operation's class is known: the batch, the summary line and the details. */
  function ProcessKnown(c: OperationClass, pdfFiles: seq<string>, host: Host): Outcome {
    var results := Batch(Step(c, host), pdfFiles, None);
    var successCount := SuccessCount(results);
    var message := SummaryMessage(successCount, |results| - successCount);
    Outcome(0, [], ["\n" + message + "\n"] + DetailLines(results), results)
  }

  /** `process_files`. */
  method ProcessFiles(operation: string, pdfFiles: seq<string>, host: Host) returns (outcome: Outcome)
    ensures outcome == ProcessFilesRun(operation, pdfFiles, host)
  {
    var processorClass := Lookup(Operations(), operation);
    if processorClass.None? {
      return Outcome(1, [], [UnknownOperationPrefix + operation + "\n"], []);
    }
    var results := ProcessMultiple(Step(processorClass.value, host), pdfFiles, None);
    var successCount := SuccessCount(results);
    var errorCount := |results| - successCount;
    var message;
    if errorCount == 0 {
      message := "✓ 成功处理 " + Decimal(successCount) + " 个文件";
    } else {
      message := "⚠ 成功 " + Decimal(successCount) + " 个，失败 " + Decimal(errorCount) + " 个";
    }
    var details := WriteDetails(results);
    outcome := Outcome(0, [], ["\n" + message + "\n"] + details, results);
  }

  /** The loop of `process_files` that writes the per-result lines. */
  method WriteDetails(results: seq<FileResult>) returns (written: seq<string>)
    ensures written == DetailLines(results)
  {
    written := [];
    for i := 0 to |results|
      invariant written == DetailLines(results[..i])
    {
      assert results[..i + 1][..i] == results[..i];
      var lines := WriteResult(results[i]);
      written := written + lines;
    }
    assert results[..|results|] == results;
  }

  /** One pass of that loop: the lines written for one result. */
  method WriteResult(result: FileResult) returns (written: seq<string>)
    ensures written == ResultLines(result)
  {
    if result.status == Success {
      written := ["  ✓ " + result.file + ": " + result.message + "\n"];
      if result.outputFiles != [] {
        var shown := if |result.outputFiles| <= 3 then result.outputFiles else result.outputFiles[..3];
        ghost var header := written;
        for j := 0 to |shown|
          invariant written == header + ArrowLines(shown[..j])
        {
          assert ArrowLines(shown[..j + 1]) == ArrowLines(shown[..j]) + [ArrowLine(shown[j])];
          written := written + ["    → " + shown[j] + "\n"];
        }
        assert shown[..|shown|] == shown;
        if |result.outputFiles| > 3 {
          written := written + ["    ... 和其他 " + Decimal(|result.outputFiles| - 3) + " 个文件\n"];
        }
      }
    } else {
      written := ["  ✗ " + result.file + ": " + result.message + "\n"];
    }
  }

  /** An unknown operation is reported, exits with status 1 and processes nothing. */
  lemma UnknownOperationStops(operation: string, pdfFiles: seq<string>, host: Host)
    requires operation !in Keys(Operations())
    ensures var outcome := ProcessFilesRun(operation, pdfFiles, host);
      outcome.exitCode == 1 && outcome.results == [] && outcome.stderr == [UnknownOperationPrefix + operation + "\n"]
  {
  }

  /**
   * A known operation processes every file once, in order, with the class
   * registered under its id; the summary counts the successes and the rest,
   * and says that all succeeded exactly when none failed.
   */
  lemma KnownOperationProcessesAll(operation: string, c: OperationClass, pdfFiles: seq<string>, host: Host)
    requires Lookup(Operations(), operation) == Some(c)
    ensures var outcome := ProcessFilesRun(operation, pdfFiles, host);
      var s := SuccessCount(outcome.results);
      && outcome.exitCode == 0
      && |outcome.results| == |pdfFiles|
      && (forall k :: 0 <= k < |pdfFiles| ==> outcome.results[k] == RunSingle(c, host, pdfFiles[k], None).result)
      && |outcome.results| - s == |Failures(outcome.results)|
      && outcome.stderr == ["\n" + SummaryMessage(s, |Failures(outcome.results)|) + "\n"] + DetailLines(outcome.results)
  {
    assert ProcessFilesRun(operation, pdfFiles, host) == ProcessKnown(c, pdfFiles, host);
    KnownClassProcessesAll(c, pdfFiles, host);
  }

  /** With its class known, every file is processed once, in order, and the summary counts the failures. */
  lemma KnownClassProcessesAll(c: OperationClass, pdfFiles: seq<string>, host: Host)
    ensures var outcome := ProcessKnown(c, pdfFiles, host);
      var s := SuccessCount(outcome.results);
      && outcome.exitCode == 0
      && |outcome.results| == |pdfFiles|
      && (forall k :: 0 <= k < |pdfFiles| ==> outcome.results[k] == RunSingle(c, host, pdfFiles[k], None).result)
      && |outcome.results| - s == |Failures(outcome.results)|
      && outcome.stderr == ["\n" + SummaryMessage(s, |Failures(outcome.results)|) + "\n"] + DetailLines(outcome.results)
  {
    var results := Batch(Step(c, host), pdfFiles, None);
    BatchPointwise(Step(c, host), pdfFiles, None);
    ErrorCountCountsFailures(results);
  }


  // ------------------------------------------------------------------ entry

  /** `args.files`: one newline-separated string, or a list of paths. */
  datatype FilesArg = FileText(text: string) | FileList(paths: seq<string>)

  /** The parsed command line: mode, query, operation and files. */
  datatype Args = Args(mode: string, query: Option<string>, operation: Option<string>, files: FilesArg)

  /** The pieces of the comprehension `[f.strip() for f in pieces if f.strip()]`. */
  function StripNonBlank(pieces: seq<string>): (files: seq<string>)
    decreases |pieces|
  {
    if pieces == [] then []
    else
      var before := StripNonBlank(pieces[..|pieces| - 1]);
      var f := Strip(pieces[|pieces| - 1]);
      if f != "" then before + [f] else before
  }

  /** The file list given as text: split on line breaks, each line stripped, blank lines dropped. */
  function ParseFileList(text: string): seq<string> {
    StripNonBlank(Split(text, '\n'))
  }

  /** Filtering commutes with concatenation: order is kept. */
  lemma {:induction false} StripNonBlankConcat(a: seq<string>, b: seq<string>)
    ensures StripNonBlank(a + b) == StripNonBlank(a) + StripNonBlank(b)
    decreases |b|
  {
    if b == [] {
      assert a + b == a;
    } else {
      var n := |b| - 1;
      assert (a + b)[..|a + b| - 1] == a + b[..n];
      StripNonBlankConcat(a, b[..n]);
    }
  }

  /** Every parsed path is non-blank, has no surrounding whitespace and no line break. */
  lemma {:induction false} ParsedFilesClean(text: string)
    ensures forall i :: 0 <= i < |ParseFileList(text)| ==>
      var f := ParseFileList(text)[i]; f != "" && IsStripped(f) && '\n' !in f
  {
    SplitPiecesFree(text, '\n');
    StripNonBlankClean(Split(text, '\n'));
  }

  lemma {:induction false} StripNonBlankClean(pieces: seq<string>)
    requires forall k :: 0 <= k < |pieces| ==> '\n' !in pieces[k]
    ensures forall i :: 0 <= i < |StripNonBlank(pieces)| ==>
      var f := StripNonBlank(pieces)[i]; f != "" && IsStripped(f) && '\n' !in f
    decreases |pieces|
  {
    if pieces != [] {
      var n := |pieces| - 1;
      StripNonBlankClean(pieces[..n]);
      var p := pieces[n];
      StripSlice(p);
      var f := Strip(p);
      var i :| 0 <= i <= |p| && OccursAt(p, f, i);
      assert '\n' !in f by {
        forall k | 0 <= k < |f| ensures f[k] != '\n' {
          assert f[k] == p[i + k];
        }
      }
    }
  }

  /** Joining clean, non-blank paths with line breaks and parsing the text gives the paths back. */
  lemma ParseJoinedFiles(files: seq<string>)
    requires forall k :: 0 <= k < |files| ==> files[k] != "" && IsStripped(files[k]) && '\n' !in files[k]
    ensures ParseFileList(JoinWith(files, '\n')) == files
  {
    if files != [] {
      SplitJoin(files, '\n');
      StripNonBlankKeeps(files);
    }
  }

  lemma {:induction false} StripNonBlankKeeps(files: seq<string>)
    requires forall k :: 0 <= k < |files| ==> files[k] != "" && IsStripped(files[k])
    ensures StripNonBlank(files) == files
    decreases |files|
  {
    if files != [] {
      var n := |files| - 1;
      StripNonBlankKeeps(files[..n]);
      StripStripped(files[n]);
    }
  }

  /** Blank lines anywhere, including a trailing line break, are dropped. */
  lemma BlankLinesDropped(a: string, b: string)
    ensures ParseFileList(a + "\n" + b) == ParseFileList(a) + ParseFileList(b)
    ensures ParseFileList(a + "\n") == ParseFileList(a)
  {
    SplitConcat(a, '\n', b);
    assert a + "\n" + b == a + ['\n'] + b;
    StripNonBlankConcat(Split(a, '\n'), Split(b, '\n'));
    SplitConcat(a, '\n', "");
    assert a + "\n" == a + ['\n'] + "";
    StripNonBlankConcat(Split(a, '\n'), Split("", '\n'));
  }

  /** The paths to process: parsed from text, or the list as given. */
  function PdfFiles(files: FilesArg): seq<string> {
    match files
    case FileText(text) => ParseFileList(text)
    case FileList(paths) => paths
  }

  /** `not args.files`. */
  predicate NoFiles(files: FilesArg) {
    match files
    case FileText(text) => text == ""
    case FileList(paths) => paths == []
  }

  const MissingOperationMessage := "错误: 未指定操作类型\n"
  const MissingFilesMessage := "错误: 未指定文件\n"

  /** `main(args)`. */
  function MainRun(args: Args, env: ListingEnv, host: Host): Outcome {
    if args.mode == "list" then
      Outcome(0, ListedItems(Operations(), args.query.GetOr(""), env), [], [])
    else if args.mode == "process" then
      if args.operation.GetOr("") == "" then Outcome(1, [], [MissingOperationMessage], [])
      else if NoFiles(args.files) then Outcome(1, [], [MissingFilesMessage], [])
      else ProcessFilesRun(args.operation.value, PdfFiles(args.files), host)
    else Outcome(0, [], [], [])
  }

  /** `main`: dispatch on the mode. */
  method Dispatch(args: Args, env: ListingEnv, host: Host) returns (outcome: Outcome)
    ensures outcome == MainRun(args, env, host)
  {
    if args.mode == "list" {
      var items := ListOperations(Operations(), args.query.GetOr(""), env);
      return Outcome(0, items, [], []);
    } else if args.mode == "process" {
      if args.operation.None? || args.operation.value == "" {
        return Outcome(1, [], [MissingOperationMessage], []);
      }
      if NoFiles(args.files) {
        return Outcome(1, [], [MissingFilesMessage], []);
      }
      var pdfFiles;
      match args.files {
        case FileText(text) =>
          pdfFiles := ParseFileList(text);
        case FileList(paths) =>
          pdfFiles := paths;
      }
      outcome := ProcessFiles(args.operation.value, pdfFiles, host);
    } else {
      return Outcome(0, [], [], []);
    }
  }

  /** Processing without an operation or without files stops with status 1 before anything is processed. */
  lemma MissingArgumentsStop(args: Args, env: ListingEnv, host: Host)
    requires args.mode == "process"
    requires args.operation.GetOr("") == "" || NoFiles(args.files)
    ensures var outcome := MainRun(args, env, host);
      outcome.exitCode == 1 && outcome.results == [] && |outcome.stderr| == 1
  {
  }
}
