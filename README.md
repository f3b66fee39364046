# Alfred PDF Operations — a verified model of the workflow core

The Alfred PDF Operations workflow offers three operations on PDF files:

- rasterize every page to PNG;
- crop the white margins with the external `pdfcrop` tool;
- split a document into one-page PDFs.

Every operation is a processor. It validates its input, picks an output directory and a base name, and names its output files by a fixed rule. It calls a library or tool to do the PDF work, and turns every fault into an error record. A batch executor runs a processor over many files without ever stopping early. The entry point keeps a registry from operation ids to processors. It lists the operations that match a query, runs the chosen one, and writes a summary that shows at most three output files per result.

This project models that core in Dafny and proves what it promises:

- the ordering and isolation of the batch;
- validation before any side effect;
- the exact output names, and the fact that split page names sort in page order;
- the first-match search for the crop tool and the PATH it runs with;
- the `pdfinfo` parser;
- the registry, the case-insensitive filter, the counting and truncation of the summary, and the parsing of the file list.

Layout, one module per file:

| file | module | models |
|---|---|---|
| `wrappers.dfy` | `Wrappers` | `Option` |
| `pytext.dfy` | `PyText` | the Python `str` behaviour the code relies on: `lower`, `strip`, `split`, `str(int)`, `int()`, `zfill`, string `<` |
| `pypath.dfy` | `PyPath` | `os.path.join`, `os.path.dirname`, `pathlib` `name`/`stem` on POSIX paths |
| `base_processor.dfy` | `BaseProcessor` | `src/pdf_processors/base_processor.py` |
| `pdf_to_png.dfy` | `PdfToPng` | `src/pdf_processors/pdf_to_png.py` |
| `pdf_split_pages.dfy` | `PdfSplitPages` | `src/pdf_processors/pdf_split_pages.py` |
| `pdf_crop_margins.dfy` | `PdfCropMargins` | `src/pdf_processors/pdf_crop_margins.py` |
| `workflow.dfy` | `Workflow` | `src/main.py` |

The processors hold only their construction-time settings, so they are datatypes (`Config`). Each `process_single` is modelled twice:

- a specification function that returns a `Run`: the result record plus the ordered trace of effects (directories created, files written, tools invoked);
- a method with the source's own loops, whose `ensures` ties it to that function.

The outside world is passed in as oracle datatypes of total functions:

- `FileSystem` for `os.path.exists` and `os.makedirs`;
- `Renderer` for `pdf2image`;
- `PdfLibrary` for PyMuPDF;
- `CropTools` for `which`, `pdfcrop`, `pdfinfo` and the environment.

## Model

| member | source | states |
|---|---|---|
| BaseProcessor.ValidationFault | src/pdf_processors/base_processor.py:70-76 | validation passes iff the path exists and its lower-cased form ends with ".pdf"; a missing path gives the not-found message whatever its suffix (existence is checked first), an existing one with another suffix gives the not-a-PDF message |
| BaseProcessor.ValidationIgnoresCase | src/pdf_processors/base_processor.py:73 | an existing path whose last four characters lower to ".pdf" (such as `X.PDF`) passes validation |
| BaseProcessor.OutputDirAsWritten | src/pdf_processors/base_processor.py:89-93 | as written: the directory is the given one or the input's `dirname`; it is created (one makedirs effect), returned when creation succeeds, and the call raises the makedirs fault exactly when creation fails |
| BaseProcessor.BareNameFailsAsWritten | src/pdf_processors/base_processor.py:89-92 | as written, a bare file name with no output directory always fails, with the error `os.makedirs('')` raises |
| BaseProcessor.DefaultOutputDir | src/pdf_processors/base_processor.py:89-90 | the corrected default output directory is never the empty name |
| BaseProcessor.DefaultOutputDirContainsInput | src/pdf_processors/base_processor.py:89-90 | the default output directory of `d/f` is `d`; that of a bare name is ".", and the output then lands beside the input |
| BaseProcessor.OutputDir | src/pdf_processors/base_processor.py:89-93 | a given directory is returned unchanged, otherwise the directory holding the input; exactly one makedirs effect; raises iff creating the directory fails |
| BaseProcessor.OutputDirAgreesAsWritten | src/pdf_processors/base_processor.py:89-93 | when an output directory is given or the input names its directory, the corrected `OutputDir` returns and does exactly what `get_output_dir` as written does |
| BaseProcessor.SavingRunFault | src/pdf_processors/pdf_split_pages.py:53-87 | in a save-each-output loop, the first save that raises gives the error carrying its text, after writing the outputs up to it |
| BaseProcessor.SavingRunSucceeds | src/pdf_processors/pdf_split_pages.py:53-78 | a save-each-output loop reaches its success record iff no save raises |
| BaseProcessor.BaseFilenameOfPdf | src/pdf_processors/base_processor.py:105 | the base name of `d/n.ext` is `n`: the last component without its final suffix |
| BaseProcessor.Settle | src/pdf_processors/base_processor.py:49-57 | a returned record is kept; a raised fault becomes an error record naming the file, carrying the fault text and no outputs |
| BaseProcessor.Batch | src/pdf_processors/base_processor.py:47-58 | the batch yields exactly one result per input path |
| BaseProcessor.ProcessMultiple | src/pdf_processors/base_processor.py:47-58 | the loop appending to `results` computes `Batch`, whatever the step raises |
| BaseProcessor.BatchPointwise | src/pdf_processors/base_processor.py:48-57 | result k is the settled outcome of processing input k |
| BaseProcessor.RaisedFileReported | src/pdf_processors/base_processor.py:52-57 | a file whose processing raises gets status error, its own path and the fault text |
| BaseProcessor.BatchSplits | src/pdf_processors/base_processor.py:48-57 | no short-circuit: the batch of `a + b` is the batch of `a` followed by the batch of `b` |
| BaseProcessor.Isolation | src/pdf_processors/base_processor.py:48-57 | two steps that agree on input k give the same result k, whatever they do on the other inputs |
| PdfToPng.ProcessSingle | src/pdf_processors/pdf_to_png.py:41-82 | the method computes `ToPngRun`: validation, output directory, rendering, then one save per image |
| PdfToPng.SaveImages | src/pdf_processors/pdf_to_png.py:54-73 | the `enumerate` loop names and saves each image in order; the first failing save ends the run as an error |
| PdfToPng.ValidationComesFirst | src/pdf_processors/pdf_to_png.py:43 | an invalid input is reported with the validation message, and nothing is created or written |
| PdfToPng.ErrorsReportNoOutputs | src/pdf_processors/pdf_to_png.py:75-82 | every result names the input; every error has no output files and no page count |
| PdfToPng.MakedirsFaultIsError | src/pdf_processors/pdf_to_png.py:46-82 | a valid input whose output directory cannot be created gives an error carrying the makedirs fault |
| PdfToPng.ConvertFaultIsError | src/pdf_processors/pdf_to_png.py:52-82 | when `convert_from_path` raises, the result is the error carrying its text, and nothing is written |
| PdfToPng.SaveFaultIsError | src/pdf_processors/pdf_to_png.py:55-82 | when image k is the first save that raises, the result is the error carrying that fault, and images 1..k were written |
| PdfToPng.SucceedsIffNoFault | src/pdf_processors/pdf_to_png.py:41-82 | the run succeeds iff the input is valid, the directory is created, the document renders and every image saves |
| PdfToPng.SuccessReportsEveryImage | src/pdf_processors/pdf_to_png.py:52-73 | on success the output files are the `count` image names in page order, the page count is `count`, and the effects are the directory and exactly those writes |
| PdfToPng.LoneImageIsNamedAfterInput | src/pdf_processors/pdf_to_png.py:55-73 | a successful run of a document rendered as one image reports exactly `<dir>/<base>.png` |
| PdfToPng.ImageNamesDistinct | src/pdf_processors/pdf_to_png.py:59-60 | with several images, `<base>_page_<i>.png` names are pairwise distinct |
| PdfToPng.FormatDoesNotNameFiles | src/pdf_processors/pdf_to_png.py:58-63 | the configured format never changes the output names |
| PdfToPng.TenthImageSortsBeforeSecond | src/pdf_processors/pdf_to_png.py:60 | unpadded numbers do not sort: from ten images on, image 10's name sorts before image 2's |
| PdfSplitPages.ProcessSingle | src/pdf_processors/pdf_split_pages.py:33-87 | the method computes `SplitRun`: validation, output directory, page directory, opening, then one save per page |
| PdfSplitPages.SavePages | src/pdf_processors/pdf_split_pages.py:51-66 | the loop over `page_num` names and saves each page in order; the first failing save ends the run as an error |
| PdfSplitPages.PageNumberWidth | src/pdf_processors/pdf_split_pages.py:59 | every page number is `len(str(total))` digits long and denotes its page |
| PdfSplitPages.PageNumbersSortNumerically | src/pdf_processors/pdf_split_pages.py:59 | padded page numbers compare as strings exactly as the pages compare as numbers |
| PdfSplitPages.PageFilesSortByPage | src/pdf_processors/pdf_split_pages.py:53-66 | output name i sorts before output name j iff i < j, so the reported list is sorted and has no repeats |
| PdfSplitPages.ValidationComesFirst | src/pdf_processors/pdf_split_pages.py:35-43 | an invalid input is reported with the validation message before any directory is created or page written |
| PdfSplitPages.ErrorsReportNoOutputs | src/pdf_processors/pdf_split_pages.py:80-87 | every result names the input; every error has no output files and no page count |
| PdfSplitPages.MakedirsFaultIsError | src/pdf_processors/pdf_split_pages.py:38-87 | a valid input whose output directory cannot be created gives an error carrying the makedirs fault |
| PdfSplitPages.SplitDirFaultIsError | src/pdf_processors/pdf_split_pages.py:42-87 | when creating `<base>_pages` raises, the result is the error carrying that fault, after the two makedirs and nothing else |
| PdfSplitPages.OpenFaultIsError | src/pdf_processors/pdf_split_pages.py:48-87 | when `fitz.open` raises, the result is the error carrying its text, and no page is written |
| PdfSplitPages.SaveFaultIsError | src/pdf_processors/pdf_split_pages.py:53-87 | when page p is the first save that raises, the result is the error carrying that fault, and the page files up to p were written |
| PdfSplitPages.SucceedsIffNoFault | src/pdf_processors/pdf_split_pages.py:33-87 | the split succeeds iff the input is valid, both directories are created, the document opens and every page saves |
| PdfSplitPages.SuccessReportsEveryPage | src/pdf_processors/pdf_split_pages.py:42-78 | on success there are `total` outputs, the page files in page order inside `<dir>/<base>_pages`, reported as `output_dir`; both directories were created and exactly those files written |
| PdfSplitPages.EmptyDocumentSplitsIntoNothing | src/pdf_processors/pdf_split_pages.py:53-77 | a document without pages is a success with no output files and page count 0 |
| PdfCropMargins.OnSearchPath | src/pdf_processors/pdf_crop_margins.py:45-54 | the `which` answer is used iff it is non-empty after stripping and exists |
| PdfCropMargins.FirstExisting | src/pdf_processors/pdf_crop_margins.py:57-59 | the first existing candidate, with none existing before it |
| PdfCropMargins.FindPdfcrop | src/pdf_processors/pdf_crop_margins.py:28-61 | the early-return search computes `PdfcropLocation` |
| PdfCropMargins.PdfcropFoundIffPresent | src/pdf_processors/pdf_crop_margins.py:36-61 | the tool is found iff `which` gives an existing file or a TeX location exists; what is found exists; `which` wins; otherwise the earliest existing location wins |
| PdfCropMargins.AugmentedEnv | src/pdf_processors/pdf_crop_margins.py:97-104 | the environment gains PATH, set to `<tool dir>:<old PATH>` or to the tool directory alone when PATH was unset, and keeps every other entry unchanged |
| PdfCropMargins.PathSearchesToolDirFirst | src/pdf_processors/pdf_crop_margins.py:97-104 | read as a directory list, the new PATH is the tool's directory followed by the old PATH's directories, or that directory alone |
| PdfCropMargins.FirstPagesLine | src/pdf_processors/pdf_crop_margins.py:185-186 | the first line starting with "Pages:", none before it |
| PdfCropMargins.CountPdfPages | src/pdf_processors/pdf_crop_margins.py:177-192 | the early-return loop over the lines of the `pdfinfo` output computes `PageCount` |
| PdfCropMargins.PagesReportParses | src/pdf_processors/pdf_crop_margins.py:187 | the field after the colon of "Pages:<spaces><n>" parses back to n |
| PdfCropMargins.PageCountReadsReport | src/pdf_processors/pdf_crop_margins.py:185-187 | whatever lines surround it, the count on the first "Pages:" line is the count returned |
| PdfCropMargins.FirstReportDecides | src/pdf_processors/pdf_crop_margins.py:185-189 | only the first "Pages:" line is read: the count is its field's value whatever lines follow, later "Pages:" lines included |
| PdfCropMargins.UnreadableReportCountsZero | src/pdf_processors/pdf_crop_margins.py:185-192 | a first "Pages:" line whose field is not an integer counts 0, even when a later one is readable |
| PdfCropMargins.NoReportCountsZero | src/pdf_processors/pdf_crop_margins.py:188-192 | without a "Pages:" line, or when `pdfinfo` fails, the count is 0 |
| PdfCropMargins.ProcessSingle | src/pdf_processors/pdf_crop_margins.py:74-165 | the method computes `CropRun`: validation, output directory, locating the tool, running it, then counting pages |
| PdfCropMargins.RunPdfcrop | src/pdf_processors/pdf_crop_margins.py:97-147 | the environment copy mutated in place, the command list and the outcome checks compute `Cropping` |
| PdfCropMargins.ValidationComesFirst | src/pdf_processors/pdf_crop_margins.py:76 | an invalid input is reported with the validation message, and nothing is created or run |
| PdfCropMargins.ErrorsReportNoOutputs | src/pdf_processors/pdf_crop_margins.py:149-165 | every result names the input; every error has no output files and no page count |
| PdfCropMargins.MissingToolRunsNothing | src/pdf_processors/pdf_crop_margins.py:88-92 | without the tool, a valid input fails with the install hint and nothing is run |
| PdfCropMargins.SuccessReportsCroppedFile | src/pdf_processors/pdf_crop_margins.py:110-147 | on success the tool was run once as `[cmd, '--margins', margin, pdf, out]` with its directory on PATH; it exited 0 and left `out`, and `output_files == [out]` |
| PdfCropMargins.CroppingSucceeded | src/pdf_processors/pdf_crop_margins.py:120-147 | a successful tail of the run is one normal tool run that left its output |
| PdfCropMargins.OutputWrittenSucceeds | src/pdf_processors/pdf_crop_margins.py:110-147 | a found tool that exits normally and writes the output makes the run succeed with exactly that file |
| PdfCropMargins.OutputMissingFails | src/pdf_processors/pdf_crop_margins.py:133-134 | a tool that exits 0 without writing the output still fails the run |
| PdfCropMargins.ToolFailureReported | src/pdf_processors/pdf_crop_margins.py:149-157 | a non-zero exit gives an error with the `pdfcrop执行失败: ` prefix followed by stderr, or by the exception text when stderr is empty |
| PdfCropMargins.CroppedFileBesideInput | src/pdf_processors/pdf_crop_margins.py:83 | with the default directory the output is `d/<n>_cropped.pdf` beside `d/<n>.<ext>`, and never the input itself |
| Workflow.Lookup | src/main.py:70-75 | an id is found iff it is a registry key, and then gives the class registered under it |
| Workflow.AssignNewKey | src/main.py:22-25 | assigning a key the dict does not hold appends it |
| Workflow.RegistryOfDistinctIds | src/main.py:22-25 | classes with distinct ids give one entry per class, in class order, under its own id |
| Workflow.OperationsRegistry | src/main.py:15-25 | the keys are exactly the three distinct ids in class order; each id maps to the class that declares it; a key is found iff it is one of them |
| Workflow.OperationsEntries | src/main.py:15-25 | the registry's items are the three (id, class) pairs in class order |
| Workflow.QuicklookPath | src/pdf_processors/pdf_to_png.py:16 | the documentation path is `<package dir>/../docs/<page>.html`: it starts with the package directory and ends with `../docs/` and the page, with exactly one separator before the page |
| Workflow.ListOperations | src/main.py:38-56 | the loop with `continue` adds exactly `ListedItems` |
| Workflow.EmptyQueryListsAll | src/main.py:38-41 | an empty query lists every operation in registry order |
| Workflow.ListedIffTitleMatches | src/main.py:40-41 | an operation is listed iff the query is empty or its lower case occurs in the lower-cased title |
| Workflow.ListedIfMatches | src/main.py:40-41 | every matching operation is listed |
| Workflow.ListedOnlyIfMatches | src/main.py:40-41 | everything listed matches the query |
| Workflow.PngQueryListsRasterizeOnly | src/main.py:40 | the query "png" lists the rasterize operation, whose title spells "PNG", and nothing else |
| Workflow.ItemsLinkExistingDocs | src/main.py:44-55 | every item is valid, and a quick-look path is attached only when that file exists |
| Workflow.QuicklookWhenPresent | src/main.py:44-48 | the quick-look path is the absolute documentation path when the file exists, and None otherwise |
| Workflow.ErrorCountCountsFailures | src/main.py:82-83 | `len - success_count` counts exactly the non-success results, and it is 0 iff all succeeded |
| Workflow.ShownAndHiddenCoverAll | src/main.py:98-101 | at most three outputs are shown, the first ones; shown plus the reported remainder is all; a remainder is reported iff something is hidden |
| Workflow.ResultLinesTruncate | src/main.py:94-103 | a success with n > 0 outputs writes a header, arrows for the first min(n, 3) outputs in order, and when n > 3 one line with n - 3; a failure writes one line |
| Workflow.ProcessFiles | src/main.py:62-103 | dispatch, batch, counting and summary compute `ProcessFilesRun` |
| Workflow.WriteDetails | src/main.py:94-103 | the nested loops write exactly `DetailLines` |
| Workflow.UnknownOperationStops | src/main.py:70-72 | an unknown id is reported and exits with status 1 before anything is processed |
| Workflow.KnownOperationProcessesAll | src/main.py:74-91 | an id the registry maps to a class processes every file once, in order, with that class; the summary counts successes and failures |
| Workflow.KnownClassProcessesAll | src/main.py:76-91 | once the class is known, every file is processed once, in order, with that class; the exit code is 0 and the summary counts successes and failures |
| Workflow.LookupRegistered | src/main.py:70-75 | each class's own operation id looks up to that class |
| Workflow.PngMatchesTitles | src/main.py:40 | of the three titles only the rasterize one contains "png" ignoring ASCII case |
| Workflow.ParsedFilesClean | src/main.py:130 | every parsed path is non-blank, stripped and free of line breaks |
| Workflow.StripNonBlankConcat | src/main.py:130 | the comprehension keeps the order of the lines |
| Workflow.StripNonBlankKeeps | src/main.py:130 | clean, non-blank pieces are kept as they are |
| Workflow.ParseJoinedFiles | src/main.py:129-130 | round trip: clean paths joined with line breaks parse back to the same list |
| Workflow.BlankLinesDropped | src/main.py:130 | blank lines, including a trailing line break, contribute nothing |
| Workflow.Dispatch | src/main.py:107-134 | `main` computes `MainRun`: list mode lists, process mode checks its arguments and processes |
| Workflow.MissingArgumentsStop | src/main.py:120-126 | process mode without an operation or without files writes one error and exits with status 1, processing nothing |
| PyText.ParseIntString | src/pdf_processors/pdf_crop_margins.py:187 | `int(str(i)) == i` |
| PyText.LexLessDigits | src/pdf_processors/pdf_split_pages.py:59 | on digit strings of equal length, string order is numeric order |
| PyPath.JoinedNamesCompareByMiddle | src/pdf_processors/pdf_split_pages.py:60 | names joined into one directory with one stem, equal-length middles and one suffix compare as their middles |
| PyPath.JoinTakenApart | src/pdf_processors/base_processor.py:90 | `dirname` and `name` take apart what `join` put together |

## Left out

- Rendering, PDF reading and writing, running `which`, `pdfcrop` and `pdfinfo`, `os.path.exists` and `os.makedirs` are not modelled. They are I/O and foreign libraries, so each is an oracle parameter that reports only a count, an output, or a fault.
- Running `which` and `pdfinfo` changes nothing, so it does not appear in the effect trace. Only the `pdfcrop` run does.
- Logging (`log`, the `print` of the file list) is not modelled, and neither is the JSON the launcher library writes. `Workflow.Outcome` keeps only the items handed to the launcher and the chunks written to stderr.
- `argparse` and reading the `files` environment variable with `splitlines()` are left out because they are process-entry glue. `Workflow.Dispatch` takes the parsed arguments and models both forms of `files`: a newline-separated string and a list.
- `Workflow.ProcessFiles` passes the batch executor each processor's specification function, not its method. Each method is proved equal to its function. The effects of the individual runs are not carried into the workflow's outcome.
- `Workflow.Step`: `process_single` catches every `Exception`, so the step never raises. A `BaseException` such as `KeyboardInterrupt`, which would escape the batch, is not modelled.
- Workflow.Step, BaseProcessor.Isolation: the file system is one fixed oracle for the whole batch. Directories created and files written while processing one file are not fed back into the file system that later files see, so `os.path.exists` and `os.makedirs` answer the same for every file. Isolation and `BaseProcessor.BatchPointwise` rely on this in part.
- BaseProcessor.Settle: the error record built for a raised fault has no `output_files` key in the source. The model gives it an empty list, which `result.get('output_files')` treats the same way.
- PyText.Lower: only ASCII letters are lower-cased. Python's `str.lower` also folds other letters, so the model's filter is weaker for non-ASCII queries. The operation titles hold CJK characters, which have no case, and ASCII letters.
- PyText.ParseInt: `int()` is modelled for an optional sign followed by ASCII digits, with surrounding whitespace. Underscores between digits and non-ASCII decimal digits are not accepted.
- PdfCropMargins.ToolRun: the text of `str(CalledProcessError)` comes from the oracle as given. Its exact wording (command and exit status) is not rebuilt.
- The docstring of the crop processor says the default margin is "10", but the code uses "0". The model follows the code (`PdfCropMargins.DefaultMargin`).
- The processors in this model use the corrected default output directory (see Findings). An explicit empty `output_dir` still fails exactly as `os.makedirs('')` does.
- Closing documents and images (`doc.close()`, `output_doc.close()`) is not modelled because it is resource handling.
- `src/pdf_processors/__init__.py` only re-exports names and is not part of this model.

## Findings

| source | as written | input that shows it | evidently intended | confidence | as-written member | corrected member |
|---|---|---|---|---|---|---|
| src/pdf_processors/base_processor.py:89-92 | with no `output_dir`, the directory is `os.path.dirname(pdf_path)`, then `os.makedirs` is called on it | `pdf_path = "a.pdf"`, an existing file in the current directory: `dirname` is `""`, and `os.makedirs('')` raises `FileNotFoundError`, so every processor reports an error for a valid input | the directory holding the input, `"."` for a bare name | medium, not executed | BaseProcessor.BareNameFailsAsWritten | BaseProcessor.DefaultOutputDirContainsInput |
