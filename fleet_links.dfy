/** The sitemap step of the fleet scraper: which sitemap URLs are ship detail pages, and the
    text file of one URL per line that the PDF step reads back. */
module FleetLinks {
  import opened PyStr

  /** The test applied to each `<loc>` URL: it lies under `/our-fleet/` and has more than four
      slashes, so it names a ship and not the fleet index. */
  predicate IsFleetDetail(url: string)
  {
    Contains(url, "/our-fleet/") && CountChar(url, '/') > 4
  }

  /** The sitemap URLs kept as fleet detail pages, in sitemap order. */
  function FleetDetailPages(urls: seq<string>): (r: seq<string>)
    ensures |r| <= |urls|
    ensures forall k :: 0 <= k < |r| ==> Contains(r[k], "/our-fleet/")
    ensures forall k :: 0 <= k < |r| ==> CountChar(r[k], '/') > 4
    decreases |urls|
  {
    if urls == [] then []
    else (if IsFleetDetail(urls[0]) then [urls[0]] else []) + FleetDetailPages(urls[1..])
  }

  /** A URL is kept exactly when it is in the sitemap and passes the test. */
  lemma {:induction false} FleetDetailPagesMembers(urls: seq<string>, u: string)
    ensures u in FleetDetailPages(urls) <==> u in urls && IsFleetDetail(u)
    decreases |urls|
  {
    if urls != [] {
      FleetDetailPagesMembers(urls[1..], u);
      assert urls == [urls[0]] + urls[1..];
    }
  }

  /** The kept URLs are the sitemap with some URLs left out and the rest in their order. */
  lemma {:induction false} FleetDetailPagesSubsequence(urls: seq<string>)
    ensures IsSubsequence(FleetDetailPages(urls), urls)
    decreases |urls|
  {
    if urls != [] {
      var rest := FleetDetailPages(urls[1..]);
      FleetDetailPagesSubsequence(urls[1..]);
      if IsFleetDetail(urls[0]) {
        assert FleetDetailPages(urls) == [urls[0]] + rest;
        assert ([urls[0]] + rest)[1..] == rest;
      } else {
        assert FleetDetailPages(urls) == [] + rest;
        assert [] + rest == rest;
        SubsequenceSkip(rest, urls);
      }
    }
  }

  /** Dropping the head of the longer list keeps a subsequence of its tail one of the whole. */
  lemma SubsequenceSkip<T>(a: seq<T>, b: seq<T>)
    requires b != [] && IsSubsequence(a, b[1..])
    ensures IsSubsequence(a, b)
  {
  }

  /** Filtering two stretches of the sitemap one after the other is filtering the whole. */
  lemma {:induction false} FleetDetailPagesAppend(a: seq<string>, b: seq<string>)
    ensures FleetDetailPages(a + b) == FleetDetailPages(a) + FleetDetailPages(b)
    decreases |a|
  {
    if a == [] {
      assert a + b == b;
    } else {
      assert (a + b)[0] == a[0];
      assert (a + b)[1..] == a[1..] + b;
      FleetDetailPagesAppend(a[1..], b);
      var head := if IsFleetDetail(a[0]) then [a[0]] else [];
      SeqAssoc(head, FleetDetailPages(a[1..]), FleetDetailPages(b));
    }
  }

  /** The file `scraper/fleets_urls.txt` as written: each kept URL followed by a line feed. */
  function UrlsFileText(urls: seq<string>): (r: string)
    ensures urls == [] <==> r == []
    ensures urls != [] ==> r[|r| - 1] == '\n'
    decreases |urls|
  {
    if urls == [] then "" else urls[0] + "\n" + UrlsFileText(urls[1..])
  }

  /** Split into lines, the file gives back the URLs followed by the empty text after the final
      line feed, provided no URL holds a line terminator of its own. */
  lemma {:induction false} UrlsFileLines(urls: seq<string>)
    requires forall k, j :: 0 <= k < |urls| && 0 <= j < |urls[k]| ==> !IsLineBreak(urls[k][j])
    ensures Lines(UrlsFileText(urls)) == urls + [""]
    decreases |urls|
  {
    if urls != [] {
      UrlsFileLines(urls[1..]);
      LinesCons(urls[0], UrlsFileText(urls[1..]));
      assert urls == [urls[0]] + urls[1..];
      SeqAssoc([urls[0]], urls[1..], [""]);
    }
  }

  /** Reading the file back as stripped, non-blank lines gives the stripped, non-blank URLs. */
  lemma UrlsFileReadBack(urls: seq<string>)
    requires forall k, j :: 0 <= k < |urls| && 0 <= j < |urls[k]| ==> !IsLineBreak(urls[k][j])
    ensures ReadStrippedLines(UrlsFileText(urls)) == KeepStrippedNonBlank(urls)
  {
    UrlsFileLines(urls);
    KeepStrippedNonBlankBlankLast(urls);
  }

  /** URLs that are already stripped and non-blank survive the write and the read unchanged. */
  lemma UrlsFileRoundTrip(urls: seq<string>)
    requires forall k, j :: 0 <= k < |urls| && 0 <= j < |urls[k]| ==> !IsLineBreak(urls[k][j])
    requires forall k :: 0 <= k < |urls| ==> urls[k] != "" && NoEdgeSpace(urls[k])
    ensures ReadStrippedLines(UrlsFileText(urls)) == urls
  {
    UrlsFileReadBack(urls);
    KeepStrippedNonBlankIdentity(urls);
  }
}
