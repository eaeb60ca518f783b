/**
 * `PackageSearchApp`: searches for packages matching the first argument (or
 * `Microsoft.Extensions`), then parses, validates, converts, analyses and
 * tabulates the results.
 */
module PackageSearchApp {
  import opened Wrappers
  import opened Text
  import opened PackagePipeline

  const DefaultQuery: string := "Microsoft.Extensions"

  /** `packageQuery`: the first argument when there is one, else the default query. */
  function PackageQuery(args: seq<string>): string {
    if |args| > 0 then args[0] else DefaultQuery
  }

  /**
   * `Main` up to its final line: the query, the search arguments, and the
   * outcome of the pipeline with the table it prints. `search` is what the
   * search process returned and `document` its output as JSON.
   */
  method RunSearch(args: seq<string>, search: SearchProcess, document: Option<SearchDocument>)
    returns (packageQuery: string, searchArguments: string, outcome: Outcome, rows: seq<DisplayRow>,
             summary: Option<Summary>)
    ensures |args| > 0 ==> packageQuery == args[0]
    ensures |args| == 0 ==> packageQuery == "Microsoft.Extensions"
    ensures searchArguments == SearchArguments(packageQuery)
    ensures outcome == SearchOutcome(search, document)
    ensures outcome.Completed? <==> summary.Some?
    ensures outcome.Completed? ==> 0 < |rows| <= 10 && |rows| == |outcome.results| && forall i :: 0 <= i < |rows| ==> rows[i] == RowOf(outcome.results[i])
    ensures !outcome.Completed? ==> rows == []
  {
    packageQuery := if |args| > 0 then args[0] else DefaultQuery;
    searchArguments := "package search " + packageQuery + " --format json --verbosity detailed --take 10";
    outcome, rows, summary := SearchAndAnalyze(search, document);
    if outcome.Completed? {
      CompletedOutcome(search, document);
    }
  }
}
