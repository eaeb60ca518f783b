/**
 * `PackageDownloadApp`: downloads one package from the NuGet flat
 * container, lists the first entries of the archive, finds its `.nuspec`
 * entry and reads the package Id back out of it.
 */
module PackageDownloadApp {
  import opened Wrappers
  import opened Text
  import opened Decimal

  const DemoPackageId: string := "Microsoft.NETCore.App.Ref"
  const DemoVersion: string := "8.0.0"
  const FlatContainer: string := "https://api.nuget.org/v3-flatcontainer/"

  /** The download address: lower-cased Id, version, then `{id}.{version}.nupkg`. */
  function DownloadUrl(packageId: string, version: string): (u: string)
    ensures StartsWith(u, FlatContainer) && EndsWith(u, ".nupkg")
  {
    FlatContainer + ToLower(packageId) + "/" + version + "/" + ToLower(packageId) + "." + version + ".nupkg"
  }

  /** Lower-casing the Id twice changes nothing more. */
  lemma {:induction false} ToLowerIdempotent(s: string)
    ensures ToLower(ToLower(s)) == ToLower(s)
  {
    var once := ToLower(s);
    assert forall i :: 0 <= i < |s| ==> LowerAscii(once[i]) == once[i];
  }

  /**
   * Ids that differ only in the case of ASCII letters name the same
   * address, and the address holds no upper-case letter of the Id.
   */
  lemma DownloadUrlIgnoresCase(a: string, b: string, version: string)
    requires |a| == |b| && forall i :: 0 <= i < |a| ==> LowerAscii(a[i]) == LowerAscii(b[i])
    ensures DownloadUrl(a, version) == DownloadUrl(b, version)
    ensures DownloadUrl(a, version) == DownloadUrl(ToLower(a), version)
  {
    assert ToLower(a) == ToLower(b);
    ToLowerIdempotent(a);
  }

  /**
   * The address starts at the flat container, ends in `.nupkg`, and the
   * segment after the container is the lower-cased Id.
   */
  lemma DownloadUrlShape(packageId: string, version: string)
    ensures var u := DownloadUrl(packageId, version);
      && StartsWith(u, FlatContainer)
      && EndsWith(u, ".nupkg")
      && OccursAt(u, ToLower(packageId) + "/" + version + "/", |FlatContainer|)
      && EndsWith(u, ToLower(packageId) + "." + version + ".nupkg")
  {
    var u := DownloadUrl(packageId, version);
    var mid := ToLower(packageId) + "/" + version + "/";
    assert u == FlatContainer + mid + (ToLower(packageId) + "." + version + ".nupkg");
    assert u[..|FlatContainer|] == FlatContainer;
    assert u[|FlatContainer|..|FlatContainer| + |mid|] == mid;
  }

  /** One archive entry: its full name, its file name and its length in bytes. */
  datatype Entry = Entry(fullName: string, name: string, length: int, content: string)

  /** The line printed for one entry. */
  function EntryLine(e: Entry): string {
    "  - " + e.fullName + " (" + FormatInt(e.length) + " bytes)"
  }

  /** What the listing promises: the first ten entries in order, then a count of the rest. */
  function Listing(entries: seq<Entry>): seq<string> {
    var shown := if |entries| < 10 then |entries| else 10;
    seq(shown, i requires 0 <= i < shown => EntryLine(entries[i]))
    + (if |entries| > 10 then ["  ... and " + FormatInt(|entries| - 10) + " more files"] else [])
  }

  /** At most ten entry lines, in entry order, and the trailer exactly when there are more than ten. */
  lemma ListingShape(entries: seq<Entry>)
    ensures var l := Listing(entries);
      && |l| <= 11
      && (forall i :: 0 <= i < |l| && i < 10 && i < |entries| ==> l[i] == EntryLine(entries[i]))
      && (|l| == 11 <==> |entries| > 10)
      && (|entries| > 10 ==> l[10] == "  ... and " + FormatInt(|entries| - 10) + " more files")
  {
  }

  /** The listing loop: every entry is counted, the first ten are printed. */
  method ListEntries(entries: seq<Entry>) returns (lines: seq<string>, fileCount: int)
    ensures fileCount == |entries|
    ensures lines == Listing(entries)
  {
    lines := [];
    fileCount := 0;
    for k := 0 to |entries|
      invariant fileCount == k
      invariant lines == seq(if k < 10 then k else 10, i requires 0 <= i < (if k < 10 then k else 10) => EntryLine(entries[i]))
    {
      if fileCount < 10 {
        lines := lines + [EntryLine(entries[k])];
      }
      fileCount := fileCount + 1;
    }
    if fileCount > 10 {
      lines := lines + ["  ... and " + FormatInt(fileCount - 10) + " more files"];
    }
  }

  /** `FirstOrDefault` over the entries from `from` on: the first whose name ends with `.nuspec`. */
  function FirstNuspec(entries: seq<Entry>, from: nat): (r: Option<nat>)
    requires from <= |entries|
    ensures r.Some? ==> from <= r.value < |entries| && EndsWith(entries[r.value].name, ".nuspec")
    ensures r.Some? ==> forall j :: from <= j < r.value ==> !EndsWith(entries[j].name, ".nuspec")
    ensures r.None? ==> forall j :: from <= j < |entries| ==> !EndsWith(entries[j].name, ".nuspec")
    decreases |entries| - from
  {
    if from == |entries| then None
    else if EndsWith(entries[from].name, ".nuspec") then Some(from)
    else FirstNuspec(entries, from + 1)
  }

  /** The Id between the first `<id>` and the first `</id>` after it, when that text is not empty. */
  function IdFromNuspec(content: string): (r: Option<string>)
    ensures r.Some? ==> |r.value| > 0 && exists i: nat :: OccursAt(content, "<id>" + r.value + "</id>", i)
  {
    if !Contains(content, "<id>") then None
    else
      var open := IndexOf(content, "<id>", 0);
      if open < 0 then None
      else
        var startIndex := open + 4;
        var endIndex := IndexOf(content, "</id>", startIndex);
        if endIndex > startIndex then
          assert content[open..endIndex + 5] == "<id>" + content[startIndex..endIndex] + "</id>" by {
            assert content[open..endIndex + 5]
                == content[open..startIndex] + content[startIndex..endIndex] + content[endIndex..endIndex + 5];
          }
          assert OccursAt(content, "<id>" + content[startIndex..endIndex] + "</id>", open);
          Some(content[startIndex..endIndex])
        else None
  }

  /** Without an `<id>` tag no Id is extracted. */
  lemma NoOpenTag(content: string)
    requires forall j: nat :: !OccursAt(content, "<id>", j)
    ensures IdFromNuspec(content) == None
  {
  }

  /**
   * With the first `<id>` at `i`, an Id is extracted exactly when a
   * `</id>` starts after `i + 4` and none starts at `i + 4`; it is then the
   * non-empty text from `i + 4` up to the first following `</id>`, and it
   * holds no `</id>` of its own.
   */
  lemma IdBetweenTags(content: string, i: nat)
    requires OccursAt(content, "<id>", i)
    requires forall j :: 0 <= j < i ==> !OccursAt(content, "<id>", j)
    ensures var r := IdFromNuspec(content);
      && (r.Some? <==> !OccursAt(content, "</id>", i + 4) && exists e :: i + 4 < e && OccursAt(content, "</id>", e))
      && (r.Some? ==>
            && |r.value| > 0
            && content[i + 4..i + 4 + |r.value|] == r.value
            && OccursAt(content, "</id>", i + 4 + |r.value|)
            && (forall j :: i + 4 <= j < i + 4 + |r.value| ==> !OccursAt(content, "</id>", j))
            && !Contains(r.value, "</id>"))
  {
    assert Contains(content, "<id>");
    var open := IndexOf(content, "<id>", 0);
    assert open == i;
    var endIndex := IndexOf(content, "</id>", i + 4);
    var r := IdFromNuspec(content);
    if endIndex > i + 4 {
      var v := content[i + 4..endIndex];
      assert r == Some(v);
      forall k: nat | k + 5 <= |v|
        ensures !OccursAt(v, "</id>", k)
      {
        assert content[i + 4 + k..i + 4 + k + 5] == v[k..k + 5];
        assert !OccursAt(content, "</id>", i + 4 + k);
      }
    } else if endIndex >= 0 {
      forall e | i + 4 < e && OccursAt(content, "</id>", e) ensures OccursAt(content, "</id>", i + 4) {
      }
    }
  }

  /**
   * The Id extraction as the program does it, index by index: the
   * step-by-step form of `IdFromNuspec`, whose meaning `IdBetweenTags` and
   * `NoOpenTag` state.
   */
  method ExtractId(nuspecContent: string) returns (extractedId: Option<string>)
    ensures extractedId == IdFromNuspec(nuspecContent)
  {
    extractedId := None;
    if Contains(nuspecContent, "<id>") {
      var open := IndexOf(nuspecContent, "<id>", 0);
      if open >= 0 {
        var startIndex := open + 4;
        var endIndex := IndexOf(nuspecContent, "</id>", startIndex);
        if endIndex > startIndex {
          extractedId := Some(nuspecContent[startIndex..endIndex]);
        }
      }
    }
  }

  /**
   * What the download yields: the archive's size and entries; an HTTP
   * failure; another failure of the download itself (a timeout, say); or
   * bytes of the given size that the temporary file or the archive reader
   * rejects.
   */
  datatype Download =
    | Downloaded(size: int, entries: seq<Entry>)
    | HttpError(message: string)
    | DownloadFailed(message: string)
    | Unreadable(size: int, message: string)

  /** The lines about the nuspec entry, if there is one. */
  function NuspecLines(entries: seq<Entry>): seq<string> {
    match FirstNuspec(entries, 0)
    case None => []
    case Some(k) =>
      ["Found nuspec file: " + entries[k].fullName]
      + match IdFromNuspec(entries[k].content)
        case None => []
        case Some(id) => ["Package ID from nuspec: " + id]
  }

  /**
   * Finding the nuspec entry and reading the Id out of it: the step-by-step
   * form of `NuspecLines`, built on `FirstNuspec` and `ExtractId`.
   */
  method InspectNuspec(entries: seq<Entry>) returns (lines: seq<string>)
    ensures lines == NuspecLines(entries)
  {
    lines := [];
    var nuspecEntry := FirstNuspec(entries, 0);
    if nuspecEntry.Some? {
      var entry := entries[nuspecEntry.value];
      lines := ["Found nuspec file: " + entry.fullName];
      var extractedId := ExtractId(entry.content);
      if extractedId.Some? {
        lines := lines + ["Package ID from nuspec: " + extractedId.value];
      }
    }
  }

  /** The three lines printed before the download starts. */
  function Opening(url: string): seq<string> {
    ["File-based app: Package Download and Inspection Demo",
     "Downloading package: " + DemoPackageId + " version " + DemoVersion,
     "Download URL: " + url]
  }

  /** The line reporting the size of the downloaded bytes. */
  function SizeLine(size: int): string {
    "Downloaded package size: " + FormatInt(size) + " bytes"
  }

  /**
   * `Main`: the download address for the demo package, then either the
   * HTTP error, the general error (after the size line when the bytes
   * arrived), or the archive size, entry count, listing, nuspec lines and
   * completion line; the closing line is printed in every case.
   */
  method Inspect(download: Download) returns (url: string, output: seq<string>)
    ensures url == DownloadUrl(DemoPackageId, DemoVersion)
    ensures download.HttpError? ==>
      output == Opening(url) + ["HTTP Error: " + download.message, "Package download demo completed."]
    ensures download.DownloadFailed? ==>
      output == Opening(url) + ["Error: " + download.message, "Package download demo completed."]
    ensures download.Unreadable? ==>
      output == Opening(url)
                + [SizeLine(download.size), "Error: " + download.message, "Package download demo completed."]
    ensures download.Downloaded? ==>
      output == Opening(url)
                + [SizeLine(download.size),
                   "Package contains " + FormatInt(|download.entries|) + " files:"]
                + Listing(download.entries) + NuspecLines(download.entries)
                + ["Package inspection completed successfully.", "Package download demo completed."]
  {
    url := DownloadUrl(DemoPackageId, DemoVersion);
    var opening := Opening(url);
    match download {
      case HttpError(message) =>
        output := opening + ["HTTP Error: " + message, "Package download demo completed."];
      case DownloadFailed(message) =>
        output := opening + ["Error: " + message, "Package download demo completed."];
      case Unreadable(size, message) =>
        output := opening + [SizeLine(size), "Error: " + message, "Package download demo completed."];
      case Downloaded(size, entries) =>
        var listing, fileCount := ListEntries(entries);
        var nuspec := InspectNuspec(entries);
        output := opening
                  + [SizeLine(size),
                     "Package contains " + FormatInt(fileCount) + " files:"]
                  + listing + nuspec
                  + ["Package inspection completed successfully.", "Package download demo completed."];
    }
  }
}
