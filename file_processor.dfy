/** `FileProcessor` of app/core/file_processor.py: the OCR model cache front
    (`load_model`), the extension-based dispatch of `process_invoice`, the
    searchability probe that chooses between direct PDF text extraction and
    OCR, and the page loops that turn per-page text into numbered records.
    pdfplumber, pdf2image and easyocr are the functions and abstract types of
    `PdfLibraries` and `Ocr`; the temporary files are a ghost set. */
module FileProcessor {
  import opened Wrappers
  import opened Strings
  import opened Values
  import opened Lru

  // ---------------------------------------------------------- file extension

  /** `s.rfind(c)`: the last index holding `c`, or -1. */
  function RFind(s: string, c: char): (r: int)
    ensures -1 <= r < |s|
    ensures r >= 0 ==> s[r] == c
    ensures forall k :: r < k < |s| ==> s[k] != c
    decreases |s|
  {
    if |s| == 0 then -1
    else if s[|s| - 1] == c then |s| - 1
    else RFind(s[..|s| - 1], c)
  }

  /** `os.path.splitext(p)[1]` on POSIX: from the last dot of the last path
      component, unless that component has nothing but dots before it. */
  function SplitExt(p: string): string {
    var sepIndex := RFind(p, '/');
    var dotIndex := RFind(p, '.');
    if dotIndex > sepIndex && exists k :: sepIndex < k < dotIndex && p[k] != '.'
    then p[dotIndex..]
    else ""
  }

  /** `_get_file_extension`: the lower-cased extension of an upload's name. */
  function FileExtension(filename: string): string {
    Lower(SplitExt(filename))
  }

  /** The extension is empty or a dot followed by no further dot or slash; it
      is the lower-cased tail of the name, and lowering it again changes nothing. */
  lemma ExtensionShape(filename: string)
    ensures var e := FileExtension(filename);
            && (e == "" || (e[0] == '.' && '.' !in e[1..] && '/' !in e))
            && |e| <= |filename| && e == Lower(filename)[|filename| - |e|..]
            && Lower(e) == e
  {
    var p := filename;
    var e := FileExtension(p);
    LowerIdempotent(SplitExt(p));
    if e != "" {
      var d := RFind(p, '.');
      assert SplitExt(p) == p[d..];
      forall i | 1 <= i < |e| ensures e[i] != '.' && e[i] != '/' {
        assert p[d + i] != '.';
        assert p[d + i] != '/';
      }
      assert e[0] == '.';
    }
  }

  lemma {:induction false} RFindLower(p: string, c: char)
    requires !('a' <= c <= 'z') && !('A' <= c <= 'Z')
    ensures RFind(Lower(p), c) == RFind(p, c)
    decreases |p|
  {
    if |p| > 0 {
      assert Lower(p)[..|p| - 1] == Lower(p[..|p| - 1]);
      RFindLower(p[..|p| - 1], c);
    }
  }

  /** The extension does not depend on the case of the name: "A.PDF" and
      "a.pdf" are routed alike. */
  lemma ExtensionIgnoresCase(filename: string)
    ensures FileExtension(Lower(filename)) == FileExtension(filename)
  {
    var p := filename;
    var q := Lower(p);
    RFindLower(p, '/');
    RFindLower(p, '.');
    var s := RFind(p, '/');
    var d := RFind(p, '.');
    assert forall k :: 0 <= k < |p| ==> (q[k] != '.' <==> p[k] != '.');
    if d > s && exists k :: s < k < d && p[k] != '.' {
      assert SplitExt(q) == q[d..] == Lower(p[d..]);
      LowerIdempotent(p[d..]);
    }
  }

  /** The last `c` sits at `i` when nothing after `i` is a `c`. */
  lemma RFindAt(s: string, c: char, i: int)
    requires -1 <= i < |s| && (i >= 0 ==> s[i] == c)
    requires forall k :: i < k < |s| ==> s[k] != c
    ensures RFind(s, c) == i
  {
  }

  lemma ExtensionExamples()
    ensures FileExtension("A.PDF") == ".pdf"
    ensures FileExtension("scan.tar.JPEG") == ".jpeg"
    ensures FileExtension(".bmp") == ""
    ensures FileExtension("dir.v2/readme") == ""
  {
    RFindAt("A.PDF", '/', -1);
    RFindAt("A.PDF", '.', 1);
    assert "A.PDF"[0] != '.';
    assert SplitExt("A.PDF") == ".PDF";
    assert Lower(".PDF") == ".pdf";
    RFindAt("scan.tar.JPEG", '/', -1);
    RFindAt("scan.tar.JPEG", '.', 8);
    assert "scan.tar.JPEG"[0] != '.';
    assert SplitExt("scan.tar.JPEG") == ".JPEG";
    assert Lower(".JPEG") == ".jpeg";
    RFindAt(".bmp", '/', -1);
    RFindAt(".bmp", '.', 0);
    RFindAt("dir.v2/readme", '/', 6);
    RFindAt("dir.v2/readme", '.', 3);
  }

  // ---------------------------------------------------------- invoice routes

  datatype InvoiceRoute = PdfRoute | ImageRoute | Unsupported

  const ImageExtensions: seq<string> := [".jpg", ".jpeg", ".png", ".tiff", ".bmp"]

  /** The branch `process_invoice` takes for a lower-cased extension. */
  function RouteOf(extension: string): InvoiceRoute {
    if extension == ".pdf" then PdfRoute
    else if extension in ImageExtensions then ImageRoute
    else Unsupported
  }

  /** Routing an upload is insensitive to the case of its name, and a name
      whose extension is none of the six known ones is rejected. */
  lemma RouteIgnoresCase(filename: string)
    ensures RouteOf(FileExtension(Lower(filename))) == RouteOf(FileExtension(filename))
    ensures RouteOf(FileExtension(filename)) == Unsupported <==>
              FileExtension(filename) != ".pdf" && FileExtension(filename) !in ImageExtensions
  {
    ExtensionIgnoresCase(filename);
  }

  /** `raise "..."` raises a str, which Python refuses with a TypeError; an
      `except Exception as e` handler then sees this text instead of the message. */
  datatype Raised = RaisedStr(s: string) | RaisedException(message: string)

  function ExceptionText(v: Raised): string {
    match v
    case RaisedStr(_) => "exceptions must derive from BaseException"
    case RaisedException(m) => m
  }

  const UnsupportedInvoiceMessage := "Currently we support pdf and image format for invoice"

  /** What the unsupported-extension branch raises as written: a bare
      string, which never reaches a handler as the message. */
  function UnsupportedInvoiceErrorAsWritten(): (e: string)
    ensures e != UnsupportedInvoiceMessage
  {
    ExceptionText(RaisedStr(UnsupportedInvoiceMessage))
  }

  /** What it evidently means to raise: an exception carrying the message. */
  function UnsupportedInvoiceError(): (e: string)
    ensures e == UnsupportedInvoiceMessage
  {
    ExceptionText(RaisedException(UnsupportedInvoiceMessage))
  }

  // ---------------------------------------------------------- libraries

  /** A page object of pdfplumber. */
  type PdfPage
  /** A page image rendered by pdf2image. */
  type Image

  /** pdfplumber and pdf2image, each call possibly raising (error = `str(e)`). */
  datatype PdfLibraries = PdfLibraries(
    open: string -> Result<seq<PdfPage>, string>,              // pdfplumber.open(path).pages
    extractText: PdfPage -> Result<Option<string>, string>,     // page.extract_text()
    rasterize: string -> Result<seq<Image>, string>)            // convert_from_path(path)

  /** What easyocr's `readtext` is handed: a file path or a page image. */
  datatype OcrInput = ImagePath(path: string) | Raster(image: Image)

  /** `easyocr.Reader(languages).readtext(input, detail=0)`: the recognised tokens. */
  type Ocr = (seq<string>, OcrInput) -> Result<seq<string>, string>

  /** One `{'page_number': n, 'text': t}` record. */
  datatype PageRecord = PageRecord(pageNumber: int, text: string)

  // ---------------------------------------------------------- page records

  /** The records a page loop appends, in order. */
  function Numbered(texts: seq<string>): (r: seq<PageRecord>)
    ensures |r| == |texts|
    ensures forall i :: 0 <= i < |r| ==> r[i] == PageRecord(i + 1, texts[i])
    decreases |texts|
  {
    if texts == [] then []
    else Numbered(texts[..|texts| - 1]) + [PageRecord(|texts|, texts[|texts| - 1])]
  }

  lemma NumberedSnoc(texts: seq<string>, t: string)
    ensures Numbered(texts + [t]) == Numbered(texts) + [PageRecord(|texts| + 1, t)]
  {
    assert (texts + [t])[..|texts|] == texts;
  }

  /** `page.extract_text() or ""`. */
  function PageText(extracted: Result<Option<string>, string>): Result<string, string> {
    match extracted
    case Failure(e) => Failure(e)
    case Success(None) => Success("")
    case Success(Some(t)) => Success(t)
  }

  /** `' '.join(reader.readtext(...))`. */
  function OcrText(tokens: Result<seq<string>, string>): Result<string, string> {
    match tokens
    case Failure(e) => Failure(e)
    case Success(ts) => Success(Join(ts, " "))
  }

  function PageTextOf(libs: PdfLibraries): PdfPage -> Result<string, string> {
    page => PageText(libs.extractText(page))
  }

  /** A reader's text for a rendered page. */
  function RasterTextOf(ocr: Ocr, languages: seq<string>): Image -> Result<string, string> {
    image => OcrText(ocr(languages, Raster(image)))
  }

  function MapRecords(texts: Result<seq<string>, string>): Result<seq<PageRecord>, string> {
    match texts
    case Failure(e) => Failure(e)
    case Success(ts) => Success(Numbered(ts))
  }

  /** `_is_searchable_pdf`: the first page has non-empty text; opening the
      file, indexing the first page or extracting its text may raise, and
      any exception counts as "not searchable". */
  predicate IsSearchablePdf(libs: PdfLibraries, path: string) {
    match libs.open(path)
    case Failure(_) => false
    case Success(pages) =>
      |pages| > 0 &&
      match libs.extractText(pages[0])
      case Success(Some(t)) => t != ""
      case _ => false
  }

  /** `_process_searchable_pdf`. */
  function SearchablePages(libs: PdfLibraries, path: string): Result<seq<PageRecord>, string> {
    match libs.open(path)
    case Failure(e) => Failure(e)
    case Success(pages) => MapRecords(MapAll(pages, PageTextOf(libs)))
  }

  /** `_process_non_searchable_pdf`, after the reader is loaded. */
  function ScannedPages(libs: PdfLibraries, ocr: Ocr, path: string): Result<seq<PageRecord>, string> {
    match libs.rasterize(path)
    case Failure(e) => Failure(e)
    case Success(images) => MapRecords(MapAll(images, RasterTextOf(ocr, ["en"])))
  }

  /** `_process_image_file`, after the reader is loaded. */
  function ImagePages(ocr: Ocr, path: string): Result<seq<PageRecord>, string> {
    match OcrText(ocr(["en"], ImagePath(path)))
    case Failure(e) => Failure(e)
    case Success(t) => Success([PageRecord(1, t)])
  }

  /** `process_invoice`'s result for an upload named `filename` saved at `path`. */
  function InvoicePages(libs: PdfLibraries, ocr: Ocr, filename: string, path: string): Result<seq<PageRecord>, string> {
    match RouteOf(FileExtension(filename))
    case PdfRoute =>
      if IsSearchablePdf(libs, path) then SearchablePages(libs, path) else ScannedPages(libs, ocr, path)
    case ImageRoute => ImagePages(ocr, path)
    case Unsupported => Failure(UnsupportedInvoiceError())
  }

  /** `process_invoice` as written, where the unsupported branch raises a str. */
  function InvoicePagesAsWritten(libs: PdfLibraries, ocr: Ocr, filename: string, path: string): Result<seq<PageRecord>, string> {
    if RouteOf(FileExtension(filename)) == Unsupported then Failure(UnsupportedInvoiceErrorAsWritten())
    else InvoicePages(libs, ocr, filename, path)
  }

  /** Whether `process_invoice` runs the OCR reader at all. */
  predicate UsesOcr(libs: PdfLibraries, filename: string, path: string) {
    match RouteOf(FileExtension(filename))
    case PdfRoute => !IsSearchablePdf(libs, path)
    case ImageRoute => true
    case Unsupported => false
  }

  /** The inputs `readtext` is called on by `process_invoice`, in call order:
      one per rendered page up to the first failing one, or the image file. */
  function OcrCalls(libs: PdfLibraries, ocr: Ocr, filename: string, path: string): seq<OcrInput> {
    match RouteOf(FileExtension(filename))
    case PdfRoute =>
      if IsSearchablePdf(libs, path) then [] else ScannedOcrCalls(libs, ocr, path)
    case ImageRoute => [ImagePath(path)]
    case Unsupported => []
  }

  function ScannedOcrCalls(libs: PdfLibraries, ocr: Ocr, path: string): seq<OcrInput> {
    match libs.rasterize(path)
    case Failure(_) => []
    case Success(images) => Rasters(images[..CallsMade(images, RasterTextOf(ocr, ["en"]))])
  }

  function Rasters(images: seq<Image>): (r: seq<OcrInput>)
    ensures |r| == |images| && forall i :: 0 <= i < |r| ==> r[i] == Raster(images[i])
  {
    seq(|images|, i requires 0 <= i < |images| => Raster(images[i]))
  }

  lemma RastersSnoc(images: seq<Image>, i: nat)
    requires i < |images|
    ensures Rasters(images[..i + 1]) == Rasters(images[..i]) + [Raster(images[i])]
  {
  }

  /** The OCR page loop stops at page `i`: the traversal's result is that
      call's error, and the calls made are the rendered pages up to `i`. */
  lemma RasterLoopStops(ocr: Ocr, languages: seq<string>, images: seq<Image>, i: nat, texts: seq<string>)
    requires i < |images| && ocr(languages, Raster(images[i])).Failure?
    requires MapAll(images[..i], RasterTextOf(ocr, languages)) == Success(texts)
    ensures MapRecords(MapAll(images, RasterTextOf(ocr, languages))) == Failure(ocr(languages, Raster(images[i])).error)
    ensures Rasters(images[..CallsMade(images, RasterTextOf(ocr, languages))]) == Rasters(images[..i]) + [Raster(images[i])]
  {
    var f := RasterTextOf(ocr, languages);
    assert f(images[i]) == OcrText(ocr(languages, Raster(images[i])));
    MapAllStops(images, f, i, texts);
    RastersSnoc(images, i);
  }

  /** The OCR page loop went through every page. */
  lemma RasterLoopDone(ocr: Ocr, languages: seq<string>, images: seq<Image>, texts: seq<string>)
    requires MapAll(images[..|images|], RasterTextOf(ocr, languages)) == Success(texts)
    ensures MapRecords(MapAll(images, RasterTextOf(ocr, languages))) == Success(Numbered(texts))
    ensures Rasters(images[..CallsMade(images, RasterTextOf(ocr, languages))]) == Rasters(images[..|images|])
  {
    MapAllDone(images, RasterTextOf(ocr, languages), texts);
  }

  /** The probe fails open: when opening the file or reading its first page
      raises, or the file has no pages, the OCR path is taken. */
  lemma ProbeFailureMeansOcr(libs: PdfLibraries, ocr: Ocr, filename: string, path: string)
    requires RouteOf(FileExtension(filename)) == PdfRoute
    requires || libs.open(path).Failure?
             || (libs.open(path).Success? && |libs.open(path).value| == 0)
             || (libs.open(path).Success? && |libs.open(path).value| > 0 &&
                 libs.extractText(libs.open(path).value[0]).Failure?)
    ensures UsesOcr(libs, filename, path)
    ensures InvoicePages(libs, ocr, filename, path) == ScannedPages(libs, ocr, path)
  {
  }

  /** A PDF whose first page has text never reaches OCR: its records do not
      depend on the reader, and no `readtext` call is made. */
  lemma SearchablePdfIgnoresOcr(libs: PdfLibraries, ocr1: Ocr, ocr2: Ocr, filename: string, path: string)
    requires RouteOf(FileExtension(filename)) == PdfRoute && IsSearchablePdf(libs, path)
    ensures InvoicePages(libs, ocr1, filename, path) == InvoicePages(libs, ocr2, filename, path)
    ensures !UsesOcr(libs, filename, path) && OcrCalls(libs, ocr1, filename, path) == []
  {
  }

  /** A scanned PDF that renders and reads successfully gets exactly one
      `readtext` call per page, in page order. */
  lemma ScannedPdfReadsEveryPageOnce(libs: PdfLibraries, ocr: Ocr, filename: string, path: string)
    requires RouteOf(FileExtension(filename)) == PdfRoute && !IsSearchablePdf(libs, path)
    requires libs.rasterize(path).Success?
    requires InvoicePages(libs, ocr, filename, path).Success?
    ensures OcrCalls(libs, ocr, filename, path) == Rasters(libs.rasterize(path).value)
  {
    var images := libs.rasterize(path).value;
    MapAllSuccess(images, RasterTextOf(ocr, ["en"]));
    assert images[..|images|] == images;
  }

  /** A searchable PDF that is processed without an exception yields one
      record per page, numbered from 1 in page order, each holding the page's
      extracted text, or "" for a page without text. */
  lemma SearchablePdfRecords(libs: PdfLibraries, ocr: Ocr, filename: string, path: string)
    requires RouteOf(FileExtension(filename)) == PdfRoute && IsSearchablePdf(libs, path)
    requires InvoicePages(libs, ocr, filename, path).Success?
    ensures libs.open(path).Success?
    ensures var r := InvoicePages(libs, ocr, filename, path).value;
            var pages := libs.open(path).value;
            && |r| == |pages|
            && forall i :: 0 <= i < |r| ==>
                 && libs.extractText(pages[i]).Success?
                 && r[i].pageNumber == i + 1
                 && r[i].text == (match libs.extractText(pages[i]).value case None => "" case Some(t) => t)
  {
    MapAllSuccess(libs.open(path).value, PageTextOf(libs));
  }

  /** A scanned PDF that is processed without an exception yields one record
      per rendered page, numbered from 1, each holding the English reader's
      tokens for that page joined by single spaces. */
  lemma ScannedPdfRecords(libs: PdfLibraries, ocr: Ocr, filename: string, path: string)
    requires RouteOf(FileExtension(filename)) == PdfRoute && !IsSearchablePdf(libs, path)
    requires InvoicePages(libs, ocr, filename, path).Success?
    ensures libs.rasterize(path).Success?
    ensures var r := InvoicePages(libs, ocr, filename, path).value;
            var images := libs.rasterize(path).value;
            && |r| == |images|
            && forall i :: 0 <= i < |r| ==>
                 && ocr(["en"], Raster(images[i])).Success?
                 && r[i] == PageRecord(i + 1, Join(ocr(["en"], Raster(images[i])).value, " "))
  {
    MapAllSuccess(libs.rasterize(path).value, RasterTextOf(ocr, ["en"]));
  }

  /** An image is one page: a single record numbered 1 holding its tokens
      joined by single spaces. */
  lemma ImageRecords(libs: PdfLibraries, ocr: Ocr, filename: string, path: string)
    requires RouteOf(FileExtension(filename)) == ImageRoute
    requires InvoicePages(libs, ocr, filename, path).Success?
    ensures ocr(["en"], ImagePath(path)).Success?
    ensures InvoicePages(libs, ocr, filename, path).value
              == [PageRecord(1, Join(ocr(["en"], ImagePath(path)).value, " "))]
  {
  }

  // ---------------------------------------------------------- model key

  /** `','.join(sorted(languages))`. */
  function LanguagesKey(languages: seq<string>): string {
    Join(Sort(languages), ",")
  }

  /** Permutations of a language list share one cache entry. */
  lemma LanguagesKeyOrderIndependent(a: seq<string>, b: seq<string>)
    requires multiset(a) == multiset(b)
    ensures LanguagesKey(a) == LanguagesKey(b)
  {
    SortOrderIndependent(a, b);
  }

  lemma SortedHasNoComma(a: seq<string>)
    requires forall i :: 0 <= i < |a| ==> ',' !in a[i]
    ensures |Sort(a)| == |a|
    ensures forall i :: 0 <= i < |Sort(a)| ==> ',' !in Sort(a)[i]
  {
    var s := Sort(a);
    assert |s| == |multiset(s)| == |multiset(a)| == |a|;
    forall i | 0 <= i < |s| ensures ',' !in s[i] {
      assert s[i] in multiset(a);
    }
  }

  /** Conversely, two non-empty lists of comma-free language codes share a key
      only when they hold the same codes. */
  lemma LanguagesKeyDistinguishes(a: seq<string>, b: seq<string>)
    requires |a| >= 1 && |b| >= 1
    requires forall i :: 0 <= i < |a| ==> ',' !in a[i]
    requires forall i :: 0 <= i < |b| ==> ',' !in b[i]
    requires LanguagesKey(a) == LanguagesKey(b)
    ensures multiset(a) == multiset(b)
  {
    SortedHasNoComma(a);
    SortedHasNoComma(b);
    SplitJoin(Sort(a), ',');
    SplitJoin(Sort(b), ',');
  }

  /** Without the comma-free condition keys collide: ["a,b"] and ["a", "b"]
      share the key "a,b". */
  lemma LanguagesKeyCollision()
    ensures LanguagesKey(["a,b"]) == LanguagesKey(["a", "b"]) == "a,b"
  {
    assert LexLe("a", "b");
    assert Sort(["b"]) == ["b"];
    assert Sort(["a", "b"]) == Insert("a", Sort(["b"])) == ["a", "b"];
    assert Sort(["a,b"]) == ["a,b"];
  }

  /** The only language list cached under "en" is ["en"]. */
  lemma EnglishKey(languages: seq<string>)
    requires LanguagesKey(languages) == "en"
    ensures languages == ["en"]
  {
    var s := Sort(languages);
    assert |s| == |multiset(s)| == |multiset(languages)| == |languages|;
    if |s| >= 2 {
      JoinContainsSeparator(s, ',');
      assert false;
    }
    assert s == ["en"];
    assert multiset(languages) == multiset{"en"};
    assert languages[0] in multiset(languages);
  }

  const CacheCapacity := 5
  const EnglishKeyText := "en"

  // ---------------------------------------------------------- the class

  /** An `easyocr.Reader`, built for a list of languages. */
  class Reader {
    const languages: seq<string>

    constructor (languages: seq<string>)
      ensures this.languages == languages
    {
      this.languages := languages;
    }
  }

  /** The cache bookkeeping of one `load_model` call for `key`: a hit only
      refreshes recency and builds no reader; a miss builds exactly one
      reader and puts it under `key`. */
  ghost predicate CacheLoaded(order0: seq<string>, store0: map<string, Reader>, built0: seq<Reader>,
                              order1: seq<string>, store1: map<string, Reader>, built1: seq<Reader>, key: string)
  {
    if key in store0 then order1 == MoveToEnd(order0, key) && store1 == store0 && built1 == built0
    else
      && CanPut(order0, CacheCapacity)
      && key in store1
      && order1 == PutOrder(order0, CacheCapacity, key)
      && store1 == PutStore(order0, store0, CacheCapacity, key, store1[key])
      && built1 == built0 + [store1[key]]
  }

  class FileProcessor {
    const modelCache: LruCache<string, Reader>
    /** The inputs handed to `readtext`, in call order. */
    ghost var ocrCalls: seq<OcrInput>
    /** The temporary files on disk. */
    ghost var tempFiles: set<string>
    /** The `easyocr.Reader`s built so far, in construction order. */
    ghost var built: seq<Reader>

    ghost predicate Valid()
      reads this, modelCache
    {
      && modelCache.Valid()
      && modelCache.capacity == CacheCapacity
      && forall k :: k in modelCache.store ==> LanguagesKey(modelCache.store[k].languages) == k
    }

    constructor ()
      ensures Valid() && fresh(modelCache)
      ensures modelCache.order == [] && ocrCalls == [] && tempFiles == {} && built == []
    {
      modelCache := new LruCache(CacheCapacity);
      ocrCalls := [];
      tempFiles := {};
      built := [];
    }

    /** `load_model`: the reader cached under the sorted, comma-joined
        languages, or a new reader built once and cached under that key. */
    method LoadModel(languages: seq<string>) returns (model: Reader)
      requires Valid()
      modifies this, modelCache
      ensures Valid()
      ensures LanguagesKey(model.languages) == LanguagesKey(languages)
      ensures CacheLoaded(old(modelCache.order), old(modelCache.store), old(built),
                          modelCache.order, modelCache.store, built, LanguagesKey(languages))
      ensures ocrCalls == old(ocrCalls) && tempFiles == old(tempFiles)
      ensures LanguagesKey(languages) in modelCache.store && model == modelCache.store[LanguagesKey(languages)]
      ensures LanguagesKey(languages) in old(modelCache.store) ==>
                model == old(modelCache.store)[LanguagesKey(languages)]
      ensures LanguagesKey(languages) !in old(modelCache.store) ==>
                fresh(model) && model.languages == languages
    {
      var key := LanguagesKey(languages);
      var cached := modelCache.Get(key);
      if cached.Some? {
        return cached.value;
      }
      model := new Reader(languages);
      built := built + [model];
      var ok := modelCache.Put(key, model);
      assert ok;
    }

    /** `_process_searchable_pdf`. */
    method ProcessSearchablePdf(libs: PdfLibraries, path: string) returns (r: Result<seq<PageRecord>, string>)
      ensures r == SearchablePages(libs, path)
    {
      var document := libs.open(path);
      if document.Failure? {
        return Failure(document.error);
      }
      var pages := document.value;
      var pagesData: seq<PageRecord> := [];
      ghost var texts: seq<string> := [];
      var i := 0;
      while i < |pages|
        invariant 0 <= i <= |pages|
        invariant MapAll(pages[..i], PageTextOf(libs)) == Success(texts)
        invariant |texts| == i && pagesData == Numbered(texts)
      {
        var text := PageText(libs.extractText(pages[i]));
        if text.Failure? {
          MapAllStops(pages, PageTextOf(libs), i, texts);
          return Failure(text.error);
        }
        MapAllStep(pages, PageTextOf(libs), i, texts);
        NumberedSnoc(texts, text.value);
        pagesData := pagesData + [PageRecord(i + 1, text.value)];
        texts := texts + [text.value];
        i := i + 1;
      }
      MapAllDone(pages, PageTextOf(libs), texts);
      r := Success(pagesData);
    }

    /** The page loop of `_process_non_searchable_pdf`: `readtext` on each
        rendered page in turn, the tokens joined by single spaces, until the
        first call that raises. */
    method ReadRasters(ocr: Ocr, languages: seq<string>, images: seq<Image>)
      returns (r: Result<seq<PageRecord>, string>)
      modifies this
      ensures r == MapRecords(MapAll(images, RasterTextOf(ocr, languages)))
      ensures ocrCalls == old(ocrCalls) + Rasters(images[..CallsMade(images, RasterTextOf(ocr, languages))])
      ensures tempFiles == old(tempFiles) && built == old(built)
    {
      var pagesData: seq<PageRecord> := [];
      ghost var texts: seq<string> := [];
      ghost var readText := RasterTextOf(ocr, languages);
      var i := 0;
      while i < |images|
        invariant 0 <= i <= |images|
        invariant MapAll(images[..i], readText) == Success(texts)
        invariant |texts| == i && pagesData == Numbered(texts)
        invariant ocrCalls == old(ocrCalls) + Rasters(images[..i])
        invariant tempFiles == old(tempFiles) && built == old(built)
      {
        ocrCalls := ocrCalls + [Raster(images[i])];
        var tokens := ocr(languages, Raster(images[i]));
        if tokens.Failure? {
          RasterLoopStops(ocr, languages, images, i, texts);
          return Failure(tokens.error);
        }
        RastersSnoc(images, i);
        var text := Join(tokens.value, " ");
        MapAllStep(images, readText, i, texts);
        NumberedSnoc(texts, text);
        pagesData := pagesData + [PageRecord(i + 1, text)];
        texts := texts + [text];
        i := i + 1;
      }
      RasterLoopDone(ocr, languages, images, texts);
      r := Success(pagesData);
    }

    /** `_process_non_searchable_pdf`: load the English reader, render the
        pages, read each page's tokens. */
    method ProcessNonSearchablePdf(libs: PdfLibraries, ocr: Ocr, path: string) returns (r: Result<seq<PageRecord>, string>)
      requires Valid()
      modifies this, modelCache
      ensures Valid()
      ensures r == ScannedPages(libs, ocr, path)
      ensures CacheLoaded(old(modelCache.order), old(modelCache.store), old(built),
                          modelCache.order, modelCache.store, built, EnglishKeyText)
      ensures ocrCalls == old(ocrCalls) + ScannedOcrCalls(libs, ocr, path)
      ensures tempFiles == old(tempFiles)
    {
      var reader := LoadModel(["en"]);
      EnglishKey(reader.languages);
      var rendered := libs.rasterize(path);
      if rendered.Failure? {
        return Failure(rendered.error);
      }
      r := ReadRasters(ocr, reader.languages, rendered.value);
    }

    /** `_process_image_file`: one record, page 1, the image's tokens. */
    method ProcessImageFile(ocr: Ocr, path: string) returns (r: Result<seq<PageRecord>, string>)
      requires Valid()
      modifies this, modelCache
      ensures Valid()
      ensures r == ImagePages(ocr, path)
      ensures CacheLoaded(old(modelCache.order), old(modelCache.store), old(built),
                          modelCache.order, modelCache.store, built, EnglishKeyText)
      ensures ocrCalls == old(ocrCalls) + [ImagePath(path)]
      ensures tempFiles == old(tempFiles)
    {
      var reader := LoadModel(["en"]);
      EnglishKey(reader.languages);
      ocrCalls := ocrCalls + [ImagePath(path)];
      var tokens := ocr(reader.languages, ImagePath(path));
      if tokens.Failure? {
        return Failure(tokens.error);
      }
      r := Success([PageRecord(1, Join(tokens.value, " "))]);
    }

    /** `_process_pdf`: the probe decides between the two paths. */
    method ProcessPdf(libs: PdfLibraries, ocr: Ocr, path: string) returns (r: Result<seq<PageRecord>, string>)
      requires Valid()
      modifies this, modelCache
      ensures Valid()
      ensures r == (if IsSearchablePdf(libs, path) then SearchablePages(libs, path) else ScannedPages(libs, ocr, path))
      ensures IsSearchablePdf(libs, path) ==>
                && ocrCalls == old(ocrCalls) && built == old(built)
                && modelCache.order == old(modelCache.order) && modelCache.store == old(modelCache.store)
      ensures !IsSearchablePdf(libs, path) ==>
                && ocrCalls == old(ocrCalls) + ScannedOcrCalls(libs, ocr, path)
                && CacheLoaded(old(modelCache.order), old(modelCache.store), old(built),
                               modelCache.order, modelCache.store, built, EnglishKeyText)
      ensures tempFiles == old(tempFiles)
    {
      if IsSearchablePdf(libs, path) {
        r := ProcessSearchablePdf(libs, path);
      } else {
        r := ProcessNonSearchablePdf(libs, ocr, path);
      }
    }

    /** `process_invoice` as written: the upload is saved to `path`,
        processed by the branch its extension selects, and the temporary file
        is removed on every exit; an unsupported extension raises a bare str. */
    method ProcessInvoice(libs: PdfLibraries, ocr: Ocr, filename: string, path: string)
      returns (r: Result<seq<PageRecord>, string>)
      requires Valid()
      modifies this, modelCache
      ensures Valid()
      ensures r == InvoicePagesAsWritten(libs, ocr, filename, path)
      ensures ocrCalls == old(ocrCalls) + OcrCalls(libs, ocr, filename, path)
      ensures UsesOcr(libs, filename, path) ==>
                CacheLoaded(old(modelCache.order), old(modelCache.store), old(built),
                            modelCache.order, modelCache.store, built, EnglishKeyText)
      ensures !UsesOcr(libs, filename, path) ==>
                && modelCache.order == old(modelCache.order) && modelCache.store == old(modelCache.store)
                && built == old(built)
      ensures tempFiles == old(tempFiles) - {path}
    {
      var extension := FileExtension(filename);
      tempFiles := tempFiles + {path};
      var route := RouteOf(extension);
      if route == PdfRoute {
        r := ProcessPdf(libs, ocr, path);
      } else if route == ImageRoute {
        r := ProcessImageFile(ocr, path);
      } else {
        r := Failure(UnsupportedInvoiceErrorAsWritten());
      }
      tempFiles := tempFiles - {path};
    }

    /** `process`: the upload is saved to `path`, handed to the unstructured
        loader and splitter (`load`), the split documents are serialized with
        `to_json()`, and the temporary file is removed on every exit. */
    method Process(load: string -> Result<seq<Document>, string>, filename: string, path: string)
      returns (r: Result<seq<map<string, Value>>, string>)
      modifies this
      ensures load(path).Failure? ==> r == Failure(load(path).error)
      ensures load(path).Success? ==> r == Success(ToJsonAll(load(path).value))
      ensures tempFiles == old(tempFiles) - {path}
      ensures ocrCalls == old(ocrCalls) && built == old(built)
    {
      var _ := FileExtension(filename);
      tempFiles := tempFiles + {path};
      var split := load(path);
      if split.Failure? {
        r := Failure(split.error);
      } else {
        r := Success(ToJsonAll(split.value));
      }
      tempFiles := tempFiles - {path};
    }
  }
}
