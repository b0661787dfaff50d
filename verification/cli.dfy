/** The command line's choice of output file. The usage text offers an optional
    second argument naming the image, defaulting to a name taken from the input;
    the script as written always saves to `new.png`. */
module CommandLine {

  const FixedOutput: string := "new.png"

  predicate EndsWith(s: string, suffix: string)
  {
    |suffix| <= |s| && s[|s| - |suffix|..] == suffix
  }

  /** The output name as the script computes it: the arguments are never consulted. */
  function OutputNameAsWritten(args: seq<string>): string
  {
    FixedOutput
  }

  /** As written, the script and the usage text part ways whenever a name other than
      `new.png` is given: `drawcopypaste.py base.json base.png` writes `new.png`
      where the usage promises `base.png`. */
  lemma AsWrittenIgnoresOutputArgument(args: seq<string>)
    requires |args| >= 3 && args[2] != FixedOutput
    ensures OutputNameAsWritten(args) != OutputName(args)
  {
  }

  /** The default image name for an input file: its `.json` ending replaced by `.png`,
      or `.png` appended when it has none. */
  function DefaultOutput(input: string): (r: string)
    ensures EndsWith(r, ".png")
    ensures r != input
  {
    var stem := if EndsWith(input, ".json") then input[..|input| - 5] else input;
    assert |stem| != |input| - 4;
    var r := stem + ".png";
    assert r[|r| - 4..] == ".png";
    r
  }

  /** The output name the usage text describes: the second argument when given,
      otherwise the default derived from the input name. */
  function OutputName(args: seq<string>): (r: string)
    requires |args| >= 2
    ensures |args| >= 3 ==> r == args[2]
    ensures |args| == 2 ==> EndsWith(r, ".png") && r != args[1]
  {
    if |args| >= 3 then args[2] else DefaultOutput(args[1])
  }
}
