/**
 * The package pipeline shared by the package search and package demo apps:
 * parse the JSON output of `dotnet package search`, validate it, convert it
 * to XML, rank it by downloads and take the top ten, and lay out the rows of
 * the results table. JSON and XML documents are abstracted to records whose
 * optional fields are the properties or elements that may be missing.
 */
module PackagePipeline {
  import opened Wrappers
  import opened Text
  import opened Decimal
  import opened OrdinalOrder

  // ---------------------------------------------------------------- search command

  /** The arguments `ExecuteDotnetPackageSearch` passes to `dotnet`, the same in both apps. */
  function SearchArguments(query: string): string {
    "package search " + query + " --format json --verbosity detailed --take 10"
  }

  /** The query sits between `package search ` and the fixed options, which ask for JSON and ten results. */
  lemma SearchArgumentsShape(query: string)
    ensures var a := SearchArguments(query);
      && a[..15] == "package search "
      && a[15..|query| + 15] == query
      && a[|query| + 15..] == " --format json --verbosity detailed --take 10"
  {
    var a := SearchArguments(query);
    var front := "package search " + query;
    assert a == front + " --format json --verbosity detailed --take 10";
    assert a[..|front|] == front;
    assert front[..15] == "package search " && front[15..] == query;
  }

  // ---------------------------------------------------------------- JSON input

  /** A JSON value read with `GetString()`: a string, or `null`. */
  datatype JsonString = JStr(text: string) | JNull

  function GetString(j: JsonString): Option<string> {
    if j.JStr? then Some(j.text) else None
  }

  /**
   * One element of the `searchResult` array. `None` is a missing property;
   * `totalDownloads` is the JSON number, read with `GetInt64()`.
   */
  datatype PackageElement = PackageElement(
    packageId: Option<JsonString>,
    latestVersion: Option<JsonString>,
    description: Option<JsonString>,
    totalDownloads: Option<int>,
    projectUrl: Option<JsonString>,
    authors: Option<seq<JsonString>>,
    tags: Option<seq<JsonString>>)

  /** The root object of the search output, with or without `searchResult`. */
  datatype SearchDocument = SearchDocument(searchResult: Option<seq<PackageElement>>)

  /** `PackageInfo`; `None` is a `null` property. */
  datatype PackageInfo = PackageInfo(
    id: Option<string>,
    version: Option<string>,
    description: Option<string>,
    totalDownloads: Option<int>,
    authors: Option<seq<string>>,
    projectUrl: Option<string>,
    tags: Option<seq<string>>)

  /** `GetInt64()` throws when the number does not fit a `long`. */
  datatype JsonError = NumberOutOfRange(index: nat)

  predicate DownloadsInRange(e: PackageElement) {
    e.totalDownloads.None? || IsLong(e.totalDownloads.value)
  }

  /** A string property: its string (or `null`) when present, `fallback` when missing. */
  function PropertyString(p: Option<JsonString>, fallback: string): Option<string> {
    match p
    case Some(j) => GetString(j)
    case None => Some(fallback)
  }

  /** An array of strings with each `null` replaced by `fallback`. */
  function StringsOr(items: seq<JsonString>, fallback: string): seq<string> {
    seq(|items|, i requires 0 <= i < |items| => GetString(items[i]).GetOr(fallback))
  }

  /** The record the parser builds for one element. */
  function Parsed(e: PackageElement): PackageInfo {
    PackageInfo(
      PropertyString(e.packageId, "Unknown"),
      PropertyString(e.latestVersion, "Unknown"),
      PropertyString(e.description, "No description"),
      Some(e.totalDownloads.GetOr(0)),
      Some(match e.authors case Some(a) => StringsOr(a, "Unknown") case None => ["Unknown"]),
      match e.projectUrl case Some(j) => GetString(j) case None => None,
      Some(match e.tags case Some(t) => StringsOr(t, "") case None => []))
  }

  /**
   * Missing properties take their defaults (Id and Version `Unknown`,
   * Description `No description`, downloads 0, no URL, authors `[Unknown]`,
   * no tags); present ones keep their value, a `null` author becoming
   * `Unknown` and a `null` tag `""`. Downloads, authors and tags are never null.
   */
  lemma ParsedDefaults(e: PackageElement)
    ensures var p := Parsed(e);
      && p.totalDownloads.Some? && p.authors.Some? && p.tags.Some?
      && (e.packageId.None? ==> p.id == Some("Unknown"))
      && (e.latestVersion.None? ==> p.version == Some("Unknown"))
      && (e.description.None? ==> p.description == Some("No description"))
      && (e.totalDownloads.None? ==> p.totalDownloads == Some(0))
      && (e.projectUrl.None? ==> p.projectUrl.None?)
      && (e.authors.None? ==> p.authors == Some(["Unknown"]))
      && (e.tags.None? ==> p.tags == Some([]))
      && (e.packageId.Some? && e.packageId.value.JStr? ==> p.id == Some(e.packageId.value.text))
      && (e.latestVersion.Some? && e.latestVersion.value.JStr? ==> p.version == Some(e.latestVersion.value.text))
      && (e.totalDownloads.Some? ==> p.totalDownloads == e.totalDownloads)
      && (e.authors.Some? ==>
            && |p.authors.value| == |e.authors.value|
            && forall i :: 0 <= i < |e.authors.value| ==>
                 p.authors.value[i] == if e.authors.value[i].JNull? then "Unknown" else e.authors.value[i].text)
      && (e.tags.Some? ==>
            && |p.tags.value| == |e.tags.value|
            && forall i :: 0 <= i < |e.tags.value| ==>
                 p.tags.value[i] == if e.tags.value[i].JNull? then "" else e.tags.value[i].text)
  {
  }

  /** The records the parser builds for an array, in order. */
  function ParsedAll(els: seq<PackageElement>): seq<PackageInfo> {
    seq(|els|, i requires 0 <= i < |els| => Parsed(els[i]))
  }

  /** The `foreach` over a JSON string array: each string, or `fallback` for `null`. */
  method CollectStrings(items: seq<JsonString>, fallback: string) returns (list: seq<string>)
    ensures list == StringsOr(items, fallback)
  {
    list := [];
    for i := 0 to |items|
      invariant list == StringsOr(items[..i], fallback)
    {
      assert items[..i + 1][..i] == items[..i];
      list := list + [GetString(items[i]).GetOr(fallback)];
    }
    assert items[..|items|] == items;
  }

  /**
   * `ParsePackageSearchJson`: no `searchResult` gives no packages; otherwise
   * one record per element in input order, unless some downloads number does
   * not fit a `long`, which throws at the first such element.
   */
  method ParsePackageSearchJson(doc: SearchDocument) returns (r: Result<seq<PackageInfo>, JsonError>)
    ensures doc.searchResult.None? ==> r == Ok([])
    ensures doc.searchResult.Some? ==>
      var els := doc.searchResult.value;
      && (r.Ok? <==> forall i :: 0 <= i < |els| ==> DownloadsInRange(els[i]))
      && (r.Ok? ==> r.value == ParsedAll(els))
      && (r.Err? ==> r.error.index < |els| && !DownloadsInRange(els[r.error.index])
                     && forall i :: 0 <= i < r.error.index ==> DownloadsInRange(els[i]))
  {
    var packages: seq<PackageInfo> := [];
    if doc.searchResult.None? {
      return Ok(packages);
    }
    var els := doc.searchResult.value;
    for i := 0 to |els|
      invariant |packages| == i
      invariant forall k :: 0 <= k < i ==> DownloadsInRange(els[k]) && packages[k] == Parsed(els[k])
    {
      var e := els[i];
      var downloads: int := 0;
      if e.totalDownloads.Some? {
        if !IsLong(e.totalDownloads.value) {
          return Err(NumberOutOfRange(i));
        }
        downloads := e.totalDownloads.value;
      }
      var url: Option<string> := None;
      if e.projectUrl.Some? {
        url := GetString(e.projectUrl.value);
      }
      var authors: seq<string>;
      if e.authors.Some? {
        authors := CollectStrings(e.authors.value, "Unknown");
      } else {
        authors := ["Unknown"];
      }
      var tags: seq<string>;
      if e.tags.Some? {
        tags := CollectStrings(e.tags.value, "");
      } else {
        tags := [];
      }
      var package := PackageInfo(
        PropertyString(e.packageId, "Unknown"),
        PropertyString(e.latestVersion, "Unknown"),
        PropertyString(e.description, "No description"),
        Some(downloads), Some(authors), url, Some(tags));
      packages := packages + [package];
    }
    return Ok(packages);
  }

  // ---------------------------------------------------------------- validation

  /** `!string.IsNullOrEmpty(p.Version)`. */
  predicate HasVersion(p: PackageInfo) {
    p.version.Some? && p.version.value != ""
  }

  predicate HasProjectUrl(p: PackageInfo) {
    p.projectUrl.Some? && p.projectUrl.value != ""
  }

  /** `p.TotalDownloads > 0`, false for `null`. */
  predicate HasDownloads(p: PackageInfo) {
    p.totalDownloads.Some? && p.totalDownloads.value > 0
  }

  /** `packages.All(p => !string.IsNullOrEmpty(p.Version))`. */
  function AllHaveVersions(ps: seq<PackageInfo>): (b: bool)
    ensures b <==> forall i :: 0 <= i < |ps| ==> HasVersion(ps[i])
  {
    |ps| == 0 || (HasVersion(ps[0]) && AllHaveVersions(ps[1..]))
  }

  function AnyHasProjectUrl(ps: seq<PackageInfo>): (b: bool)
    ensures b <==> exists i :: 0 <= i < |ps| && HasProjectUrl(ps[i])
  {
    |ps| > 0 && (HasProjectUrl(ps[0]) || AnyHasProjectUrl(ps[1..]))
  }

  function AnyHasDownloads(ps: seq<PackageInfo>): (b: bool)
    ensures b <==> exists i :: 0 <= i < |ps| && HasDownloads(ps[i])
  {
    |ps| > 0 && (HasDownloads(ps[0]) || AnyHasDownloads(ps[1..]))
  }

  /** The three findings `ValidatePackageContent` reports. */
  datatype ValidationReport = ValidationReport(hasVersions: bool, hasProjectUrls: bool, hasDownloadCounts: bool)

  /** `ValidatePackageContent`: throws exactly when some version is missing or empty. */
  function ValidatePackageContent(ps: seq<PackageInfo>): (r: Result<ValidationReport, string>)
    ensures r.Err? <==> exists i :: 0 <= i < |ps| && !HasVersion(ps[i])
    ensures r.Err? ==> r.error == "Expected version information not found"
    ensures r.Ok? ==> r.value.hasVersions
                      && (r.value.hasProjectUrls <==> exists i :: 0 <= i < |ps| && HasProjectUrl(ps[i]))
                      && (r.value.hasDownloadCounts <==> exists i :: 0 <= i < |ps| && HasDownloads(ps[i]))
  {
    var report := ValidationReport(AllHaveVersions(ps), AnyHasProjectUrl(ps), AnyHasDownloads(ps));
    if !report.hasVersions then Err("Expected version information not found") else Ok(report)
  }

  /**
   * Parsed output fails validation exactly when some element's
   * `latestVersion` is present but `null` or empty: a missing one becomes
   * `Unknown`, which passes.
   */
  lemma ParsedValidation(els: seq<PackageElement>)
    ensures ValidatePackageContent(ParsedAll(els)).Err? <==>
      exists i :: 0 <= i < |els| && els[i].latestVersion.Some?
                  && (els[i].latestVersion.value == JNull || els[i].latestVersion.value == JStr(""))
  {
    var ps := ParsedAll(els);
    forall i | 0 <= i < |els|
      ensures !HasVersion(ps[i]) <==>
                (els[i].latestVersion.Some?
                 && (els[i].latestVersion.value == JNull || els[i].latestVersion.value == JStr("")))
    {
      assert ps[i] == Parsed(els[i]);
    }
  }

  // ---------------------------------------------------------------- XML

  /**
   * One `Package` element as the analysis reads it back: the `Id` attribute
   * and the child elements, `None` where missing. Each element's text is
   * its `Value`.
   */
  datatype XmlPackage = XmlPackage(
    id: Option<string>,
    version: Option<string>,
    description: Option<string>,
    totalDownloads: Option<string>,
    projectUrl: Option<string>,
    authors: Option<seq<string>>,
    tags: Option<seq<string>>)

  /** The element `ConvertPackagesToXml` writes for one record: every part is written. */
  function ToXmlElement(p: PackageInfo): XmlPackage {
    XmlPackage(
      Some(p.id.GetOr("Unknown")),
      Some(p.version.GetOr("Unknown")),
      Some(p.description.GetOr("No description")),
      Some(FormatInt(p.totalDownloads.GetOr(0))),
      Some(p.projectUrl.GetOr("")),
      Some(p.authors.GetOr([])),
      Some(p.tags.GetOr([])))
  }

  /** `ConvertPackagesToXml`: one `Package` element per record, in order. */
  function ConvertPackagesToXml(ps: seq<PackageInfo>): (xs: seq<XmlPackage>)
    ensures |xs| == |ps|
    ensures forall i :: 0 <= i < |xs| ==>
      && xs[i].id == Some(ps[i].id.GetOr("Unknown"))
      && xs[i].version.Some? && xs[i].description.Some? && xs[i].totalDownloads.Some?
      && xs[i].projectUrl.Some? && xs[i].authors.Some? && xs[i].tags.Some?
  {
    seq(|ps|, i requires 0 <= i < |ps| => ToXmlElement(ps[i]))
  }

  // ---------------------------------------------------------------- analysis

  /** The anonymous record the analysis reads from one `Package` element. */
  datatype AnalysisRow = AnalysisRow(id: string, version: string, downloads: int, url: string, authors: seq<string>)

  /** `long.TryParse` of the element text, 0 when missing or not a `long`. */
  function ReadDownloads(text: Option<string>): int {
    match text
    case None => 0
    case Some(s) => ParseLong(s).GetOr(0)
  }

  function ReadRow(x: XmlPackage): AnalysisRow {
    AnalysisRow(x.id.GetOr("Unknown"), x.version.GetOr("Unknown"), ReadDownloads(x.totalDownloads),
                x.projectUrl.GetOr("Not specified"), x.authors.GetOr([]))
  }

  /** The `Where` and `Select` steps: the elements that have `TotalDownloads`, read. */
  function RowsWithDownloads(xml: seq<XmlPackage>): (rows: seq<AnalysisRow>)
    ensures |rows| <= |xml|
  {
    if |xml| == 0 then []
    else if xml[0].totalDownloads.Some? then [ReadRow(xml[0])] + RowsWithDownloads(xml[1..])
    else RowsWithDownloads(xml[1..])
  }

  /** `OrderByDescending(Downloads).ThenBy(Id)`: `a` may come before `b`. */
  predicate RankLe(a: AnalysisRow, b: AnalysisRow) {
    a.downloads > b.downloads || (a.downloads == b.downloads && OrdinalLe(a.id, b.id))
  }

  lemma RankLeTotal(a: AnalysisRow, b: AnalysisRow)
    ensures RankLe(a, b) || RankLe(b, a)
  {
    OrdinalLeTotal(a.id, b.id);
  }

  lemma RankLeTransitive(a: AnalysisRow, b: AnalysisRow, c: AnalysisRow)
    requires RankLe(a, b) && RankLe(b, c)
    ensures RankLe(a, c)
  {
    if a.downloads == b.downloads == c.downloads {
      OrdinalLeTransitive(a.id, b.id, c.id);
    }
  }

  ghost predicate Ranked(s: seq<AnalysisRow>) {
    forall i, j :: 0 <= i < j < |s| ==> RankLe(s[i], s[j])
  }

  /** Places `x` before the first row it may precede, keeping equal rows in input order. */
  function Insert(x: AnalysisRow, s: seq<AnalysisRow>): seq<AnalysisRow> {
    if |s| == 0 then [x]
    else if RankLe(x, s[0]) then [x] + s
    else [s[0]] + Insert(x, s[1..])
  }

  /** The stable sort of the two ordering steps. */
  function SortRows(s: seq<AnalysisRow>): seq<AnalysisRow> {
    if |s| == 0 then [] else Insert(s[0], SortRows(s[1..]))
  }

  lemma {:induction false} InsertPermutes(x: AnalysisRow, s: seq<AnalysisRow>)
    ensures multiset(Insert(x, s)) == multiset(s) + multiset{x}
  {
    if |s| > 0 && !RankLe(x, s[0]) {
      InsertPermutes(x, s[1..]);
      assert s == [s[0]] + s[1..];
    }
  }

  lemma {:induction false} InsertRanked(x: AnalysisRow, s: seq<AnalysisRow>)
    requires Ranked(s)
    ensures Ranked(Insert(x, s))
  {
    if |s| > 0 {
      if RankLe(x, s[0]) {
        var r := [x] + s;
        forall i, j | 0 <= i < j < |r| ensures RankLe(r[i], r[j]) {
          if i == 0 && j > 1 {
            RankLeTransitive(x, s[0], s[j - 1]);
          }
        }
      } else {
        RankLeTotal(x, s[0]);
        var tail := Insert(x, s[1..]);
        InsertRanked(x, s[1..]);
        InsertPermutes(x, s[1..]);
        var r := [s[0]] + tail;
        forall i, j | 0 <= i < j < |r| ensures RankLe(r[i], r[j]) {
          if i == 0 {
            var y := r[j];
            assert y in multiset(tail);
            assert y == x || y in multiset(s[1..]);
            if y != x {
              var k :| 0 < k < |s| && s[k] == y by {
                assert y in s[1..];
              }
            }
          }
        }
      }
    }
  }

  /** The sorted rows are ranked and are a permutation of the input. */
  lemma {:induction false} SortRowsCorrect(s: seq<AnalysisRow>)
    ensures Ranked(SortRows(s))
    ensures multiset(SortRows(s)) == multiset(s)
  {
    if |s| > 0 {
      SortRowsCorrect(s[1..]);
      InsertRanked(s[0], SortRows(s[1..]));
      InsertPermutes(s[0], SortRows(s[1..]));
      assert s == [s[0]] + s[1..];
    }
  }

  function Min(a: int, b: int): int {
    if a <= b then a else b
  }

  /** The rows that survive `Take(10)`. */
  function TopRows(xml: seq<XmlPackage>): (top: seq<AnalysisRow>)
    ensures |top| == Min(10, |RowsWithDownloads(xml)|)
  {
    var ranked := SortRows(RowsWithDownloads(xml));
    SortRowsCorrect(RowsWithDownloads(xml));
    assert |ranked| == |RowsWithDownloads(xml)| by {
      assert |multiset(ranked)| == |multiset(RowsWithDownloads(xml))|;
    }
    ranked[..Min(10, |ranked|)]
  }

  /** The result tuple of the final `Select`. */
  datatype AnalysisResult = AnalysisResult(id: string, version: string, downloads: int, url: string, authorList: string)

  /** The authors joined by `, `, or `Unknown` when there are none. */
  function AuthorList(authors: seq<string>): (r: string)
    ensures |authors| == 0 ==> r == "Unknown"
    ensures |authors| == 1 ==> r == authors[0]
    ensures |authors| > 0 ==> StartsWith(r, authors[0])
  {
    Join(", ", if |authors| > 0 then authors else ["Unknown"])
  }

  function Summarize(row: AnalysisRow): AnalysisResult {
    AnalysisResult(row.id, row.version, row.downloads, row.url, AuthorList(row.authors))
  }

  /** `AnalyzePackagesWithLinq`. */
  function AnalyzePackagesWithLinq(xml: seq<XmlPackage>): (r: seq<AnalysisResult>)
    ensures |r| <= 10 && |r| <= |xml|
  {
    var top := TopRows(xml);
    seq(|top|, i requires 0 <= i < |top| => Summarize(top[i]))
  }

  /** At most ten results, and never more than there were packages. */
  lemma AnalyzeBounds(xml: seq<XmlPackage>)
    ensures var r := AnalyzePackagesWithLinq(xml);
      && |r| <= 10 && |r| <= |xml|
      && |r| == Min(10, |RowsWithDownloads(xml)|)
  {
    var rows := RowsWithDownloads(xml);
    SortRowsCorrect(rows);
    assert |SortRows(rows)| == |rows| by {
      assert |multiset(SortRows(rows))| == |multiset(rows)|;
    }
  }

  /**
   * The top rows are ranked, come from the input, and each of them ranks at
   * or above every row that was cut.
   */
  lemma TopRowsAreTheBest(xml: seq<XmlPackage>)
    ensures Ranked(TopRows(xml))
    ensures exists rest: seq<AnalysisRow> ::
      && multiset(TopRows(xml)) + multiset(rest) == multiset(RowsWithDownloads(xml))
      && forall i, j :: 0 <= i < |TopRows(xml)| && 0 <= j < |rest| ==> RankLe(TopRows(xml)[i], rest[j])
  {
    var rows := RowsWithDownloads(xml);
    var ranked := SortRows(rows);
    SortRowsCorrect(rows);
    var top := TopRows(xml);
    var rest := ranked[|top|..];
    RankedCut(ranked, |top|);
    assert top == ranked[..|top|];
    assert multiset(top) + multiset(rest) == multiset(rows);
  }

  /** Cutting a ranked sequence leaves a ranked front that ranks above the back. */
  lemma RankedCut(ranked: seq<AnalysisRow>, n: nat)
    requires Ranked(ranked) && n <= |ranked|
    ensures Ranked(ranked[..n])
    ensures multiset(ranked[..n]) + multiset(ranked[n..]) == multiset(ranked)
    ensures forall i, j :: 0 <= i < n && 0 <= j < |ranked| - n ==> RankLe(ranked[..n][i], ranked[n..][j])
  {
    assert ranked == ranked[..n] + ranked[n..];
    forall i, j | 0 <= i < n && 0 <= j < |ranked| - n ensures RankLe(ranked[..n][i], ranked[n..][j]) {
      assert ranked[..n][i] == ranked[i] && ranked[n..][j] == ranked[n + j];
    }
    forall i, j | 0 <= i < j < n ensures RankLe(ranked[..n][i], ranked[..n][j]) {
      assert ranked[..n][i] == ranked[i] && ranked[..n][j] == ranked[j];
    }
  }

  /**
   * Results run from most to fewest downloads, equal counts in ascending
   * ordinal order of Id.
   */
  lemma AnalyzeOrdered(xml: seq<XmlPackage>)
    ensures var r := AnalyzePackagesWithLinq(xml);
      forall i, j :: 0 <= i < j < |r| ==>
        r[i].downloads >= r[j].downloads && (r[i].downloads == r[j].downloads ==> OrdinalLe(r[i].id, r[j].id))
  {
    TopRowsAreTheBest(xml);
  }

  /** The first result has at least as many downloads as any package analysed. */
  lemma FirstIsMostDownloaded(xml: seq<XmlPackage>)
    requires |RowsWithDownloads(xml)| > 0
    ensures var r := AnalyzePackagesWithLinq(xml);
      |r| > 0 && forall k :: 0 <= k < |RowsWithDownloads(xml)| ==> r[0].downloads >= RowsWithDownloads(xml)[k].downloads
  {
    var rows := RowsWithDownloads(xml);
    var ranked := SortRows(rows);
    SortRowsCorrect(rows);
    AnalyzeBounds(xml);
    forall k | 0 <= k < |rows| ensures ranked[0].downloads >= rows[k].downloads {
      assert rows[k] in multiset(ranked);
      var m :| 0 <= m < |ranked| && ranked[m] == rows[k];
      if m > 0 {
        assert RankLe(ranked[0], ranked[m]);
      }
    }
  }

  /**
   * Written to XML and read back, each record gives the row of its own
   * fields: Id, Version, downloads `TotalDownloads ?? 0`, URL
   * `ProjectUrl ?? ""` (the element is always written, so never
   * `Not specified`) and its authors.
   */
  lemma {:induction false} XmlRoundTrip(ps: seq<PackageInfo>)
    requires forall i :: 0 <= i < |ps| ==> IsLong(ps[i].totalDownloads.GetOr(0))
    ensures RowsWithDownloads(ConvertPackagesToXml(ps)) ==
      seq(|ps|, i requires 0 <= i < |ps| =>
        AnalysisRow(ps[i].id.GetOr("Unknown"), ps[i].version.GetOr("Unknown"), ps[i].totalDownloads.GetOr(0),
                    ps[i].projectUrl.GetOr(""), ps[i].authors.GetOr([])))
  {
    if |ps| > 0 {
      var xml := ConvertPackagesToXml(ps);
      assert xml[1..] == ConvertPackagesToXml(ps[1..]);
      XmlRoundTrip(ps[1..]);
      FormatThenParse(ps[0].totalDownloads.GetOr(0));
    }
  }

  /** Every parsed record's downloads fit a `long`, so the XML round trip keeps them. */
  lemma ParsedDownloadsAreLong(els: seq<PackageElement>)
    requires forall i :: 0 <= i < |els| ==> DownloadsInRange(els[i])
    ensures forall i :: 0 <= i < |els| ==> IsLong(ParsedAll(els)[i].totalDownloads.GetOr(0))
  {
  }

  // ---------------------------------------------------------------- display

  /**
   * `s.Length > max ? s.Substring(0, keep) + "..." : s`. With `keep + 3 <= max`
   * the result never exceeds `max`.
   */
  function Truncate(s: string, max: nat, keep: nat): (r: string)
    requires keep + 3 <= max
    ensures |r| <= max
    ensures |s| <= max ==> r == s
    ensures |s| > max ==> |r| == keep + 3 && r[..keep] == s[..keep] && EndsWith(r, "...")
  {
    if |s| > max then s[..keep] + "..." else s
  }

  /** The values of one table row, before padding and number formatting. */
  datatype DisplayRow = DisplayRow(id: string, version: string, downloads: int, authors: string, url: string)

  function RowOf(result: AnalysisResult): DisplayRow {
    DisplayRow(result.id, result.version, result.downloads, Truncate(result.authorList, 23, 20), Truncate(result.url, 28, 25))
  }

  /** `results.Sum(r => r.Downloads)`. */
  function SumDownloads(results: seq<AnalysisResult>): int {
    if |results| == 0 then 0 else results[0].downloads + SumDownloads(results[1..])
  }

  /** `results.Max(r => r.Downloads)`. */
  function MaxDownloads(results: seq<AnalysisResult>): (m: int)
    requires |results| > 0
    ensures forall i :: 0 <= i < |results| ==> results[i].downloads <= m
    ensures exists i :: 0 <= i < |results| && results[i].downloads == m
  {
    if |results| == 1 then results[0].downloads
    else
      var rest := MaxDownloads(results[1..]);
      if results[0].downloads >= rest then results[0].downloads else rest
  }

  /** `results.Min(r => r.Downloads)`. */
  function MinDownloads(results: seq<AnalysisResult>): (m: int)
    requires |results| > 0
    ensures forall i :: 0 <= i < |results| ==> results[i].downloads >= m
    ensures exists i :: 0 <= i < |results| && results[i].downloads == m
  {
    if |results| == 1 then results[0].downloads
    else
      var rest := MinDownloads(results[1..]);
      if results[0].downloads <= rest then results[0].downloads else rest
  }

  /** The summary line's count, total, maximum and minimum. */
  datatype Summary = Summary(count: nat, total: int, max: int, min: int)

  /**
   * `DisplayFormattedResults`: one row per result in order, with authors cut
   * to at most 23 characters and URLs to at most 28, and a summary exactly
   * when there are results.
   */
  method DisplayFormattedResults(results: seq<AnalysisResult>) returns (rows: seq<DisplayRow>, summary: Option<Summary>)
    ensures |rows| == |results|
    ensures forall i :: 0 <= i < |results| ==> rows[i] == RowOf(results[i])
    ensures forall i :: 0 <= i < |rows| ==> |rows[i].authors| <= 23 && |rows[i].url| <= 28
    ensures summary.Some? <==> |results| > 0
    ensures summary.Some? ==>
      summary.value == Summary(|results|, SumDownloads(results), MaxDownloads(results), MinDownloads(results))
  {
    rows := [];
    for i := 0 to |results|
      invariant |rows| == i
      invariant forall k :: 0 <= k < i ==> rows[k] == RowOf(results[k])
    {
      var package := results[i];
      var truncatedUrl := if |package.url| > 28 then package.url[..25] + "..." else package.url;
      var truncatedAuthors := if |package.authorList| > 23 then package.authorList[..20] + "..." else package.authorList;
      rows := rows + [DisplayRow(package.id, package.version, package.downloads, truncatedAuthors, truncatedUrl)];
    }
    summary := None;
    if |results| > 0 {
      summary := Some(Summary(|results|, SumDownloads(results), MaxDownloads(results), MinDownloads(results)));
    }
  }

  // ---------------------------------------------------------------- the steps of `Main`

  /** What `dotnet package search` returned: its exit code and standard output. */
  datatype SearchProcess = SearchProcess(exitCode: int, output: string)

  /** The exception `Main` catches and reports. */
  datatype Failure =
    | SearchFailed(exitCode: int)
    | MalformedJson
    | DownloadsOutOfRange(index: nat)
    | MissingVersions

  /** How the search-and-analyse steps of `Main` end. */
  datatype Outcome =
    | NoSearchResults
    | NoPackages
    | Failed(failure: Failure)
    | Completed(packages: seq<PackageInfo>, results: seq<AnalysisResult>)

  /** The index of the first element whose downloads do not fit a `long`, or `|els|`. */
  function FirstOutOfRange(els: seq<PackageElement>): (k: nat)
    ensures k <= |els|
    ensures forall i :: 0 <= i < k ==> DownloadsInRange(els[i])
    ensures k < |els| ==> !DownloadsInRange(els[k])
  {
    if |els| == 0 || !DownloadsInRange(els[0]) then 0 else 1 + FirstOutOfRange(els[1..])
  }

  /**
   * Steps 1 to 5 of `Main`: a failed search throws; empty output stops with
   * "No search results"; malformed JSON or an out-of-range count throws; no
   * packages stops with "No packages found"; missing versions throw;
   * otherwise the packages are converted and analysed. `document` is the
   * output as `JsonDocument.Parse` reads it, `None` if it is not JSON.
   */
  function SearchOutcome(search: SearchProcess, document: Option<SearchDocument>): Outcome {
    if search.exitCode != 0 then Failed(SearchFailed(search.exitCode))
    else if search.output == "" then NoSearchResults
    else if document.None? then Failed(MalformedJson)
    else
      var doc := document.value;
      var els := doc.searchResult.GetOr([]);
      if FirstOutOfRange(els) < |els| then Failed(DownloadsOutOfRange(FirstOutOfRange(els)))
      else
        var packages := ParsedAll(els);
        if |packages| == 0 then NoPackages
        else if ValidatePackageContent(packages).Err? then Failed(MissingVersions)
        else Completed(packages, AnalyzePackagesWithLinq(ConvertPackagesToXml(packages)))
  }

  /** `r` reports the Id, Version, download count and URL of package `p`. */
  predicate Reports(r: AnalysisResult, p: PackageInfo) {
    && r.id == p.id.GetOr("Unknown") && r.version == p.version.GetOr("Unknown")
    && r.downloads == p.totalDownloads.GetOr(0) && r.url == p.projectUrl.GetOr("")
  }

  /** Every result is the summary of one of the rows analysed. */
  lemma ResultsFromRows(xml: seq<XmlPackage>, k: nat)
    requires k < |AnalyzePackagesWithLinq(xml)|
    ensures exists i :: 0 <= i < |RowsWithDownloads(xml)| &&
                        AnalyzePackagesWithLinq(xml)[k] == Summarize(RowsWithDownloads(xml)[i])
  {
    var rows := RowsWithDownloads(xml);
    var top := TopRows(xml);
    TopRowsAreTheBest(xml);
    var rest: seq<AnalysisRow> :| multiset(top) + multiset(rest) == multiset(rows);
    assert top[k] in multiset(top);
    assert top[k] in multiset(rows);
    var i :| 0 <= i < |rows| && rows[i] == top[k];
  }

  /**
   * Analysing converted packages gives between one and ten results for a
   * non-empty list, led by the most downloaded package, each reporting one
   * of the packages.
   */
  lemma AnalyzeConverted(ps: seq<PackageInfo>)
    requires forall i :: 0 <= i < |ps| ==> IsLong(ps[i].totalDownloads.GetOr(0))
    requires |ps| > 0
    ensures var r := AnalyzePackagesWithLinq(ConvertPackagesToXml(ps));
      && 0 < |r| <= 10 && |r| <= |ps|
      && (forall i :: 0 <= i < |ps| ==> r[0].downloads >= ps[i].totalDownloads.GetOr(0))
      && (forall k :: 0 <= k < |r| ==> exists i :: 0 <= i < |ps| && Reports(r[k], ps[i]))
  {
    var xml := ConvertPackagesToXml(ps);
    var r := AnalyzePackagesWithLinq(xml);
    XmlRoundTrip(ps);
    var rows := RowsWithDownloads(xml);
    assert |rows| == |ps|;
    AnalyzeBounds(xml);
    FirstIsMostDownloaded(xml);
    forall i | 0 <= i < |ps| ensures r[0].downloads >= ps[i].totalDownloads.GetOr(0) {
      assert rows[i].downloads == ps[i].totalDownloads.GetOr(0);
    }
    forall k | 0 <= k < |r| ensures exists i :: 0 <= i < |ps| && Reports(r[k], ps[i]) {
      ResultsFromRows(xml, k);
      var i :| 0 <= i < |rows| && r[k] == Summarize(rows[i]);
      assert Reports(r[k], ps[i]);
    }
  }

  /**
   * A completed run has validated packages and between one and ten results,
   * led by the most downloaded package, each reporting a parsed package.
   */
  lemma CompletedOutcome(search: SearchProcess, document: Option<SearchDocument>)
    requires SearchOutcome(search, document).Completed?
    ensures var o := SearchOutcome(search, document);
      && |o.packages| > 0
      && (forall i :: 0 <= i < |o.packages| ==> HasVersion(o.packages[i]))
      && 0 < |o.results| <= 10 && |o.results| <= |o.packages|
      && (forall i :: 0 <= i < |o.packages| ==> o.results[0].downloads >= o.packages[i].totalDownloads.GetOr(0))
      && (forall k :: 0 <= k < |o.results| ==> exists i :: 0 <= i < |o.packages| && Reports(o.results[k], o.packages[i]))
  {
    var els := document.value.searchResult.GetOr([]);
    ParsedDownloadsAreLong(els);
    AnalyzeConverted(ParsedAll(els));
  }

  /**
   * Steps 2 to 6 of `Main` after the search: parse, validate, convert,
   * analyse, and lay out the table when the run completes.
   */
  method SearchAndAnalyze(search: SearchProcess, document: Option<SearchDocument>)
    returns (outcome: Outcome, rows: seq<DisplayRow>, summary: Option<Summary>)
    ensures outcome == SearchOutcome(search, document)
    ensures outcome.Completed? ==>
      && |rows| == |outcome.results|
      && (forall i :: 0 <= i < |rows| ==> rows[i] == RowOf(outcome.results[i]))
      && summary.Some?
    ensures !outcome.Completed? ==> rows == [] && summary.None?
  {
    rows := [];
    summary := None;
    if search.exitCode != 0 {
      return Failed(SearchFailed(search.exitCode)), rows, summary;
    }
    if search.output == "" {
      return NoSearchResults, rows, summary;
    }
    if document.None? {
      return Failed(MalformedJson), rows, summary;
    }
    var parsed := ParsePackageSearchJson(document.value);
    ghost var els := document.value.searchResult.GetOr([]);
    if parsed.Err? {
      return Failed(DownloadsOutOfRange(parsed.error.index)), rows, summary;
    }
    var packages := parsed.value;
    assert packages == ParsedAll(els);
    if |packages| == 0 {
      return NoPackages, rows, summary;
    }
    var validation := ValidatePackageContent(packages);
    if validation.Err? {
      return Failed(MissingVersions), rows, summary;
    }
    var packagesXml := ConvertPackagesToXml(packages);
    var analysisResults := AnalyzePackagesWithLinq(packagesXml);
    AnalyzeBounds(packagesXml);
    outcome := Completed(packages, analysisResults);
    rows, summary := DisplayFormattedResults(analysisResults);
  }
}
