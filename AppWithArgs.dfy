/**
 * `AppWithArgs`: a file-based app that echoes its command-line arguments,
 * one line per argument, with a note when there are none.
 */
module AppWithArgs {
  import opened Decimal

  const Banner: string := "File-based app with arguments"
  const NoArguments: string := "No arguments provided"

  /** The line printed for argument `i`. */
  function ArgumentLine(i: nat, arg: string): string {
    "  arg[" + FormatNat(i) + "]: " + arg
  }

  /**
   * `Main`: the banner, the count, one line per argument in index order,
   * and the note exactly when the list is empty.
   */
  method Run(args: seq<string>) returns (lines: seq<string>)
    ensures |lines| == 2 + |args| + (if |args| == 0 then 1 else 0)
    ensures lines[0] == Banner
    ensures lines[1] == "Received " + FormatNat(|args|) + " arguments:"
    ensures forall i :: 0 <= i < |args| ==> lines[2 + i] == ArgumentLine(i, args[i])
    ensures NoArguments in lines <==> |args| == 0
  {
    lines := [Banner, "Received " + FormatNat(|args|) + " arguments:"];
    for i := 0 to |args|
      invariant |lines| == 2 + i
      invariant lines[0] == Banner && lines[1] == "Received " + FormatNat(|args|) + " arguments:"
      invariant forall k :: 0 <= k < i ==> lines[2 + k] == ArgumentLine(k, args[k])
    {
      lines := lines + [ArgumentLine(i, args[i])];
    }
    if |args| == 0 {
      lines := lines + [NoArguments];
    } else {
      forall k | 0 <= k < |lines| ensures lines[k] != NoArguments {
        if k >= 2 {
          assert lines[k] == ArgumentLine(k - 2, args[k - 2]);
          assert lines[k][0] == ' ';
        } else if k == 1 {
          assert lines[k][0] == 'R';
        }
      }
    }
  }
}
