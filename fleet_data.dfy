/** The PDF step of the fleet scraper: read the URL list, name each ship after the last segment of
    its URL, and print each page to `Fleet_pdfs/<ship>.pdf`, carrying on past pages that fail. */
module FleetData {
  import opened PyStr

  /** The output folder. */
  const PdfOutputDir: string := "Fleet_pdfs"

  /** `url.strip().split("/")[-1]`. */
  function ShipId(url: string): string
  {
    Last(Split(Strip(url), "/"))
  }

  /** The ship id is what follows the last `/` of the stripped URL: a suffix of it with no `/`,
      preceded by a `/` when the URL has one, and the whole stripped URL when it has none. */
  lemma ShipIdSuffix(url: string)
    ensures '/' !in ShipId(url)
    ensures |ShipId(url)| <= |Strip(url)|
    ensures Strip(url)[|Strip(url)| - |ShipId(url)|..] == ShipId(url)
    ensures '/' in Strip(url) ==>
              |ShipId(url)| < |Strip(url)| && Strip(url)[|Strip(url)| - |ShipId(url)| - 1] == '/'
    ensures '/' !in Strip(url) ==> ShipId(url) == Strip(url)
  {
    var s := Strip(url);
    assert ShipId(url) == Last(Split(s, "/"));
    LastPieceFree(s);
    LastPieceSuffix(s);
    LastPieceWhole(s);
    if '/' in s {
      LastPieceAfterSlash(s);
      assert |ShipId(url)| < |s| && s[|s| - |ShipId(url)| - 1] == '/';
    }
  }

  /** The last piece of a split at `/` holds no `/`. */
  lemma LastPieceFree(s: string)
    ensures '/' !in Last(Split(s, "/"))
  {
    SplitPiecesFree(s, "/");
    ContainsChar(Last(Split(s, "/")), '/');
    assert "/" == ['/'];
  }

  /** The last piece of a split at `/` ends the text. */
  lemma LastPieceSuffix(s: string)
    ensures |Last(Split(s, "/"))| <= |s|
    ensures s[|s| - |Last(Split(s, "/"))|..] == Last(Split(s, "/"))
  {
    SplitJoin(s, "/");
    JoinLast(Split(s, "/"), "/");
  }

  /** When the text has a `/`, its last piece follows one. */
  lemma LastPieceAfterSlash(s: string)
    ensures '/' in s ==>
              |Last(Split(s, "/"))| < |s| && s[|s| - |Last(Split(s, "/"))| - 1] == '/'
  {
    if '/' in s {
      SplitSlashCuts(s);
      SplitJoin(s, "/");
      JoinSlashBeforeLast(Split(s, "/"));
    }
  }

  /** A text with a `/` splits into more than one piece. */
  lemma SplitSlashCuts(s: string)
    ensures '/' in s ==> |Split(s, "/")| > 1
  {
    var parts := Split(s, "/");
    if |parts| == 1 {
      SplitJoin(s, "/");
      SplitPiecesFree(s, "/");
      ContainsChar(parts[0], '/');
      assert "/" == ['/'];
    }
  }

  /** Joining several pieces with `/` puts a `/` just before the last one. */
  lemma JoinSlashBeforeLast(parts: seq<string>)
    requires |parts| > 1
    ensures |Last(parts)| < |Join(parts, "/")|
    ensures Join(parts, "/")[|Join(parts, "/")| - |Last(parts)| - 1] == '/'
  {
    JoinLast(parts, "/");
    var j := Join(parts, "/");
    var a := |j| - |Last(parts)| - 1;
    assert j[a..a + 1] == "/";
    assert j[a] == j[a..a + 1][0];
  }

  /** Without a `/` the text is its own last piece. */
  lemma LastPieceWhole(s: string)
    ensures '/' !in s ==> Last(Split(s, "/")) == s
  {
    if '/' !in s {
      ContainsChar(s, '/');
      assert "/" == ['/'];
      SplitAbsent(s, "/");
    }
  }

  /** A URL that ends in `/` gives the empty ship id, and so the file `Fleet_pdfs/.pdf`. */
  lemma ShipIdTrailingSlash(url: string)
    requires Strip(url) != [] && Strip(url)[|Strip(url)| - 1] == '/'
    ensures ShipId(url) == ""
    ensures PdfPath(ShipId(url)) == "Fleet_pdfs/.pdf"
  {
    ShipIdSuffix(url);
    PdfPathShape(ShipId(url));
  }

  /** `os.path.join(a, b)` on POSIX for two parts: an absolute `b` replaces `a`; otherwise `b` is
      appended, after a `/` unless `a` is empty or already ends in one. */
  function PathJoin(a: string, b: string): string
  {
    if |b| > 0 && b[0] == '/' then b
    else if a == [] || a[|a| - 1] == '/' then a + b
    else a + "/" + b
  }

  /** `os.path.join(PDF_OUTPUT_DIR, f"{ship_id}.pdf")`. */
  function PdfPath(shipId: string): string
  {
    PathJoin(PdfOutputDir, shipId + ".pdf")
  }

  /** The file a printed URL writes. */
  function PdfFileOf(url: string): string
  {
    PdfPath(ShipId(url))
  }

  /** For a ship id, which never holds a `/`, the join is plain concatenation inside the folder. */
  lemma PdfPathShape(shipId: string)
    requires '/' !in shipId
    ensures PdfPath(shipId) == "Fleet_pdfs/" + shipId + ".pdf"
  {
    var b := shipId + ".pdf";
    if shipId != [] {
      assert b[0] == shipId[0];
    } else {
      assert b == ".pdf";
    }
  }

  /** Two URLs with different ship ids write different files, and the same ship id the same
      file: the path determines the ship id. */
  lemma PdfPathInjective(u: string, v: string)
    ensures PdfFileOf(u) == PdfFileOf(v) <==> ShipId(u) == ShipId(v)
  {
    LastPieceFree(Strip(u));
    LastPieceFree(Strip(v));
    PdfPathShape(ShipId(u));
    PdfPathShape(ShipId(v));
    if PdfFileOf(u) == PdfFileOf(v) {
      AffixCancel(ShipId(u), ShipId(v), "Fleet_pdfs/", ".pdf");
    }
  }

  /** Text between a fixed prefix and a fixed suffix is determined by the whole. */
  lemma AffixCancel(a: string, b: string, pre: string, post: string)
    requires pre + a + post == pre + b + post
    ensures a == b
  {
    var p := pre + a + post;
    assert a == p[|pre|..|p| - |post|];
    assert b == p[|pre|..|p| - |post|];
  }

  /** What the log records for one URL. */
  datatype Attempt = Saved(path: string) | Failed(url: string)

  /** The attempt for the URL at position `i`, where `printed` says whether navigating to it and
      printing it went through. */
  function AttemptOf(url: string, printed: bool): (a: Attempt)
    ensures a.Saved? <==> printed
    ensures a.Saved? ==> a.path == PdfFileOf(url)
    ensures a.Failed? ==> a.url == url
  {
    if printed then Saved(PdfFileOf(url)) else Failed(url)
  }

  /** The log after the first `n` URLs: one attempt per URL, a failure included. */
  function AttemptLog(urls: seq<string>, printed: (nat, string) -> bool, n: nat): seq<Attempt>
    requires n <= |urls|
  {
    if n == 0 then [] else AttemptLog(urls, printed, n - 1) + [AttemptOf(urls[n - 1], printed(n - 1, urls[n - 1]))]
  }

  /** One more URL appends its attempt to the log. */
  lemma AttemptLogStep(urls: seq<string>, printed: (nat, string) -> bool, n: nat, log: seq<Attempt>)
    requires n < |urls| && log == AttemptLog(urls, printed, n)
    ensures AttemptLog(urls, printed, n + 1) == log + [AttemptOf(urls[n], printed(n, urls[n]))]
  {
  }

  /** A failure on one URL is logged and the loop goes on: the log has one entry per URL, in
      order, each saved or failed by whether that URL printed. */
  lemma {:induction false} AttemptLogEntries(urls: seq<string>, printed: (nat, string) -> bool, n: nat)
    requires n <= |urls|
    ensures |AttemptLog(urls, printed, n)| == n
    ensures forall i :: 0 <= i < n ==> AttemptLog(urls, printed, n)[i] == AttemptOf(urls[i], printed(i, urls[i]))
    decreases n
  {
    if n > 0 {
      AttemptLogEntries(urls, printed, n - 1);
    }
  }

  /** The folder after the first `n` URLs: each printed page writes (or overwrites) the file
      `fileOf` names for it with that page. The scraper names files with `PdfFileOf`. */
  function SavedFiles(folder: map<string, string>, urls: seq<string>, printed: (nat, string) -> bool,
                      fileOf: string -> string, n: nat): map<string, string>
    requires n <= |urls|
  {
    if n == 0 then folder
    else
      var before := SavedFiles(folder, urls, printed, fileOf, n - 1);
      if printed(n - 1, urls[n - 1]) then before[fileOf(urls[n - 1]) := urls[n - 1]]
      else before
  }

  /** One more URL writes its file when it printed and changes nothing otherwise. */
  lemma SavedFilesStep(folder: map<string, string>, urls: seq<string>, printed: (nat, string) -> bool,
                       fileOf: string -> string, n: nat, files: map<string, string>)
    requires n < |urls| && files == SavedFiles(folder, urls, printed, fileOf, n)
    ensures SavedFiles(folder, urls, printed, fileOf, n + 1)
            == if printed(n, urls[n]) then files[fileOf(urls[n]) := urls[n]] else files
  {
  }

  /** URL `i` was printed, and so wrote the file at `path`. */
  predicate WritesTo(urls: seq<string>, printed: (nat, string) -> bool, fileOf: string -> string,
                     i: nat, path: string)
    requires i < |urls|
  {
    printed(i, urls[i]) && fileOf(urls[i]) == path
  }

  /** A file is in the folder afterwards exactly when it was there before or some printed URL
      wrote it; failed URLs create no file. */
  lemma {:induction false} SavedFilesKeys(folder: map<string, string>, urls: seq<string>,
                                          printed: (nat, string) -> bool, fileOf: string -> string,
                                          n: nat, path: string)
    requires n <= |urls|
    ensures path in SavedFiles(folder, urls, printed, fileOf, n) <==>
              path in folder || exists i :: 0 <= i < n && WritesTo(urls, printed, fileOf, i, path)
    decreases n
  {
    if n > 0 {
      var before := SavedFiles(folder, urls, printed, fileOf, n - 1);
      SavedFilesKeys(folder, urls, printed, fileOf, n - 1, path);
      assert path in SavedFiles(folder, urls, printed, fileOf, n)
             <==> path in before || WritesTo(urls, printed, fileOf, n - 1, path);
      if exists i :: 0 <= i < n && WritesTo(urls, printed, fileOf, i, path) {
        var i :| 0 <= i < n && WritesTo(urls, printed, fileOf, i, path);
        if i < n - 1 {
          assert path in before;
        }
      }
    }
  }

  /** A printed URL whose file no later printed URL writes holds its page at the end. */
  lemma {:induction false} SavedFilesLast(folder: map<string, string>, urls: seq<string>,
                                          printed: (nat, string) -> bool, fileOf: string -> string,
                                          n: nat, i: nat)
    requires i < n <= |urls| && printed(i, urls[i])
    requires forall j :: i < j < n && printed(j, urls[j]) ==> fileOf(urls[j]) != fileOf(urls[i])
    ensures fileOf(urls[i]) in SavedFiles(folder, urls, printed, fileOf, n)
    ensures SavedFiles(folder, urls, printed, fileOf, n)[fileOf(urls[i])] == urls[i]
    decreases n
  {
    if i < n - 1 {
      SavedFilesLast(folder, urls, printed, fileOf, n - 1, i);
    }
  }

  /** With the scraper's naming, a printed URL keeps its PDF unless a later printed URL has the
      same ship id, which overwrites it. */
  lemma SavedPdfLast(folder: map<string, string>, urls: seq<string>, printed: (nat, string) -> bool,
                     i: nat)
    requires i < |urls| && printed(i, urls[i])
    requires forall j :: i < j < |urls| && printed(j, urls[j]) ==> ShipId(urls[j]) != ShipId(urls[i])
    ensures PdfFileOf(urls[i]) in SavedFiles(folder, urls, printed, PdfFileOf, |urls|)
    ensures SavedFiles(folder, urls, printed, PdfFileOf, |urls|)[PdfFileOf(urls[i])] == urls[i]
  {
    forall j | i < j < |urls| && printed(j, urls[j])
      ensures PdfFileOf(urls[j]) != PdfFileOf(urls[i])
    {
      PdfPathInjective(urls[j], urls[i]);
    }
    SavedFilesLast(folder, urls, printed, PdfFileOf, |urls|, i);
  }

  /** The scraper's view of the disk: the contents of the output folder, each file named by its
      path and holding the page printed from the URL it is mapped to. */
  class FleetScraper {
    var pdfs: map<string, string>

    constructor(existing: map<string, string>)
      ensures pdfs == existing
    {
      pdfs := existing;
    }

    /** `save_fleet_pages_as_pdf`: read the list file `text`, then visit each URL in order. A
        visit either prints the page (`printed(i, url)` holds) or raises, which is logged and
        skipped; either way the loop goes on to the next URL. */
    method SaveFleetPages(text: string, printed: (nat, string) -> bool)
      returns (urls: seq<string>, log: seq<Attempt>)
      modifies this
      ensures urls == ReadStrippedLines(text)
      ensures log == AttemptLog(urls, printed, |urls|)
      ensures pdfs == SavedFiles(old(pdfs), urls, printed, PdfFileOf, |urls|)
    {
      urls := ReadStrippedLines(text);
      log := SaveAll(urls, printed);
    }

    /** The loop over the URLs, in order. */
    method SaveAll(urls: seq<string>, printed: (nat, string) -> bool) returns (log: seq<Attempt>)
      modifies this
      ensures log == AttemptLog(urls, printed, |urls|)
      ensures pdfs == SavedFiles(old(pdfs), urls, printed, PdfFileOf, |urls|)
    {
      ghost var folder := pdfs;
      log := [];
      var i := 0;
      while i < |urls|
        invariant 0 <= i <= |urls|
        invariant log == AttemptLog(urls, printed, i)
        invariant pdfs == SavedFiles(folder, urls, printed, PdfFileOf, i)
      {
        ghost var pdfsBefore := pdfs;
        var attempt := SaveOne(urls[i], printed(i, urls[i]));
        AttemptLogStep(urls, printed, i, log);
        SavedFilesStep(folder, urls, printed, PdfFileOf, i, pdfsBefore);
        log := log + [attempt];
        i := i + 1;
      }
    }

    /** One pass of the loop body: print the page to its PDF path, or log the failure and write
        nothing. */
    method SaveOne(url: string, printed: bool) returns (attempt: Attempt)
      modifies this
      ensures attempt == AttemptOf(url, printed)
      ensures pdfs == if printed then old(pdfs)[PdfFileOf(url) := url] else old(pdfs)
    {
      if printed {
        var pdfPath := PdfFileOf(url);
        pdfs := pdfs[pdfPath := url];
        attempt := Saved(pdfPath);
      } else {
        attempt := Failed(url);
      }
    }
  }
}
