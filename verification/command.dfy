/**
 The command under construction: the ordered list of command-line tokens of one
 git invocation. The package that owns it (`types.Cmd`) is not part of this
 model; every option in pull/pull.go touches it only through `AddOptions`,
 which is taken to append one token to the end of the list.
 */
module Command {

  /** The accumulated argument list, sub-command first. */
  type Cmd = seq<string>

  /** `g` is an unchanged prefix of `r`. */
  predicate Extends(g: Cmd, r: Cmd) {
    |g| <= |r| && r[..|g|] == g
  }

  /** The tokens `r` has beyond its prefix `g`. */
  function Added(g: Cmd, r: Cmd): seq<string>
    requires Extends(g, r)
  {
    r[|g|..]
  }

  /** `r` is `g` followed by exactly the tokens `ts`, in order. */
  predicate Appends(g: Cmd, r: Cmd, ts: seq<string>) {
    Extends(g, r) && Added(g, r) == ts
  }

  /** A fresh command holding only the sub-command name. */
  function New(subcommand: string): (g: Cmd)
    ensures |g| == 1 && g[0] == subcommand
  {
    [subcommand]
  }

  /** The single mutation the options use: one more token at the end. */
  function AddOptions(g: Cmd, option: string): (r: Cmd)
    ensures Appends(g, r, [option])
  {
    g + [option]
  }

  /** One `AddOptions` call per token, in order: the loop of `Refspec`. */
  function AddEach(g: Cmd, options: seq<string>): (r: Cmd)
    ensures Appends(g, r, options)
    decreases |options|
  {
    if |options| == 0 then g
    else
      var r := AddEach(AddOptions(g, options[0]), options[1..]);
      assert r[|g|..] == [options[0]] + r[|g| + 1..];
      r
  }

  /** Appending is the same as sequence concatenation, in both directions. */
  lemma AppendsIsConcat(g: Cmd, r: Cmd, ts: seq<string>)
    ensures Appends(g, r, ts) <==> r == g + ts
  {
    if r == g + ts {
      assert r[..|g|] == g;
      assert r[|g|..] == ts;
    }
  }
}
