/**
 The option builder of `git pull` (pull/pull.go). Each exported Go function is
 either an option itself (`func(*types.Cmd)`) or returns one for its argument;
 here the argument comes first and the command second, so `Log(n)(g)` in the
 source is `Log(n, g)`. Every option only appends tokens to the command.
 */
module Pull {
  import opened Optional
  import opened Command
  import Flag

  /** `--all`: Fetch all remotes. */
  function All(g: Cmd): (r: Cmd)
    ensures Appends(g, r, ["--all"])
  {
    AddOptions(g, "--all")
  }

  /** `--allow-unrelated-histories`: Allow merging histories that share no common ancestor. */
  function AllowUnrelatedHistories(g: Cmd): (r: Cmd)
    ensures Appends(g, r, ["--allow-unrelated-histories"])
  {
    AddOptions(g, "--allow-unrelated-histories")
  }

  /** `--append`: Add fetched ref names to FETCH_HEAD instead of overwriting it. */
  function Append(g: Cmd): (r: Cmd)
    ensures Appends(g, r, ["--append"])
  {
    AddOptions(g, "--append")
  }

  /** `--autostash`: Stash local modifications before the rebase and restore them after. */
  function Autostash(g: Cmd): (r: Cmd)
    ensures Appends(g, r, ["--autostash"])
  {
    AddOptions(g, "--autostash")
  }

  /** `--commit`: Perform the merge and commit the result. */
  function Commit(g: Cmd): (r: Cmd)
    ensures Appends(g, r, ["--commit"])
  {
    AddOptions(g, "--commit")
  }

  /** `--deepen=<depth>`: Deepen a shallow history by `depth` commits from its current boundary. Emitted even when `depth` is empty. */
  function Deepen(depth: string, g: Cmd): (r: Cmd)
    ensures Appends(g, r, ["--deepen=" + depth])
    ensures Flag.Value("--deepen", r[|g|]) == Some(depth)
  {
    Flag.ParseAssign("--deepen", depth);
    assert Flag.Assign("--deepen", depth) == "--deepen=" + depth;
    AddOptions(g, Flag.Assign("--deepen", depth))
  }

  /** `--depth=<value>`: Limit fetching to `value` commits from each remote branch tip. Emitted even when `value` is empty. */
  function Depth(value: string, g: Cmd): (r: Cmd)
    ensures Appends(g, r, ["--depth=" + value])
    ensures Flag.Value("--depth", r[|g|]) == Some(value)
  {
    Flag.ParseAssign("--depth", value);
    assert Flag.Assign("--depth", value) == "--depth=" + value;
    AddOptions(g, Flag.Assign("--depth", value))
  }

  /** `--edit`: Open an editor on the generated merge message. */
  function Edit(g: Cmd): (r: Cmd)
    ensures Appends(g, r, ["--edit"])
  {
    AddOptions(g, "--edit")
  }

  /** `--ff`: Fast-forward when possible, without a merge commit. */
  function Ff(g: Cmd): (r: Cmd)
    ensures Appends(g, r, ["--ff"])
  {
    AddOptions(g, "--ff")
  }

  /** `--ff-only`: Refuse anything but a fast-forward. */
  function FfOnly(g: Cmd): (r: Cmd)
    ensures Appends(g, r, ["--ff-only"])
  {
    AddOptions(g, "--ff-only")
  }

  /** `--force`: Update local branches even when not a descendant. */
  function Force(g: Cmd): (r: Cmd)
    ensures Appends(g, r, ["--force"])
  {
    AddOptions(g, "--force")
  }

  /** `--ipv4`: Use IPv4 addresses only. */
  function Ipv4(g: Cmd): (r: Cmd)
    ensures Appends(g, r, ["--ipv4"])
  {
    AddOptions(g, "--ipv4")
  }

  /** `--ipv6`: Use IPv6 addresses only. */
  function Ipv6(g: Cmd): (r: Cmd)
    ensures Appends(g, r, ["--ipv6"])
  {
    AddOptions(g, "--ipv6")
  }

  /** `--keep`: Keep the downloaded pack. */
  function Keep(g: Cmd): (r: Cmd)
    ensures Appends(g, r, ["--keep"])
  {
    AddOptions(g, "--keep")
  }

  /** `--log[=<n>]`: Add one-line descriptions of at most `n` merged commits to the message. The bare flag when `n` is empty. */
  function Log(n: string, g: Cmd): (r: Cmd)
    ensures |n| == 0 ==> Appends(g, r, ["--log"])
    ensures |n| > 0 ==> Appends(g, r, ["--log=" + n])
    ensures Flag.OptionalValue("--log", r[|g|]) == Some(n)
  {
    if |n| == 0 then
      Flag.ParseName("--log");
      AddOptions(g, "--log")
    else
      Flag.ParseAssign("--log", n);
      assert Flag.Assign("--log", n) == "--log=" + n;
      AddOptions(g, Flag.Assign("--log", n))
  }

  /** `--no-autostash`: Override rebase.autoStash. */
  function NoAutostash(g: Cmd): (r: Cmd)
    ensures Appends(g, r, ["--no-autostash"])
  {
    AddOptions(g, "--no-autostash")
  }

  /** `--no-commit`: Merge but stop before committing. */
  function NoCommit(g: Cmd): (r: Cmd)
    ensures Appends(g, r, ["--no-commit"])
  {
    AddOptions(g, "--no-commit")
  }

  /** `--no-edit`: Accept the generated merge message. */
  function NoEdit(g: Cmd): (r: Cmd)
    ensures Appends(g, r, ["--no-edit"])
  {
    AddOptions(g, "--no-edit")
  }

  /** `--no-ff`: Always create a merge commit. */
  function NoFf(g: Cmd): (r: Cmd)
    ensures Appends(g, r, ["--no-ff"])
  {
    AddOptions(g, "--no-ff")
  }

  /** `--no-log`: Leave commit descriptions out of the merge message. */
  function NoLog(g: Cmd): (r: Cmd)
    ensures Appends(g, r, ["--no-log"])
  {
    AddOptions(g, "--no-log")
  }

  /** `--no-rebase`: Override an earlier --rebase. */
  function NoRebase(g: Cmd): (r: Cmd)
    ensures Appends(g, r, ["--no-rebase"])
  {
    AddOptions(g, "--no-rebase")
  }

  /** `--no-recurse-submodules[=<value>]`: Control fetching of populated submodules. The bare flag when `value` is empty. */
  function NoRecurseSubmodules(value: string, g: Cmd): (r: Cmd)
    ensures |value| == 0 ==> Appends(g, r, ["--no-recurse-submodules"])
    ensures |value| > 0 ==> Appends(g, r, ["--no-recurse-submodules=" + value])
    ensures Flag.OptionalValue("--no-recurse-submodules", r[|g|]) == Some(value)
  {
    if |value| == 0 then
      Flag.ParseName("--no-recurse-submodules");
      AddOptions(g, "--no-recurse-submodules")
    else
      Flag.ParseAssign("--no-recurse-submodules", value);
      assert Flag.Assign("--no-recurse-submodules", value) == "--no-recurse-submodules=" + value;
      AddOptions(g, Flag.Assign("--no-recurse-submodules", value))
  }

  /** `--no-squash`: Override --squash. */
  function NoSquash(g: Cmd): (r: Cmd)
    ensures Appends(g, r, ["--no-squash"])
  {
    AddOptions(g, "--no-squash")
  }

  /** `--no-stat`: Do not show a diffstat after the merge. */
  function NoStat(g: Cmd): (r: Cmd)
    ensures Appends(g, r, ["--no-stat"])
  {
    AddOptions(g, "--no-stat")
  }

  /** `--no-tags`: Disable automatic tag following. */
  function NoTags(g: Cmd): (r: Cmd)
    ensures Appends(g, r, ["--no-tags"])
  {
    AddOptions(g, "--no-tags")
  }

  /** `--no-verify-signatures`: Do not verify the signature of the merged tip. */
  function NoVerifySignatures(g: Cmd): (r: Cmd)
    ensures Appends(g, r, ["--no-verify-signatures"])
  {
    AddOptions(g, "--no-verify-signatures")
  }

  /** `--progress`: Force progress reporting. */
  function Progress(g: Cmd): (r: Cmd)
    ensures Appends(g, r, ["--progress"])
  {
    AddOptions(g, "--progress")
  }

  /** `--quiet`: Squelch fetch and merge output. */
  function Quiet(g: Cmd): (r: Cmd)
    ensures Appends(g, r, ["--quiet"])
  {
    AddOptions(g, "--quiet")
  }

  /** `--rebase[=<value>]`: Rebase the current branch onto the upstream after fetching. The bare flag when `value` is empty. */
  function Rebase(value: string, g: Cmd): (r: Cmd)
    ensures |value| == 0 ==> Appends(g, r, ["--rebase"])
    ensures |value| > 0 ==> Appends(g, r, ["--rebase=" + value])
    ensures Flag.OptionalValue("--rebase", r[|g|]) == Some(value)
  {
    if |value| == 0 then
      Flag.ParseName("--rebase");
      AddOptions(g, "--rebase")
    else
      Flag.ParseAssign("--rebase", value);
      assert Flag.Assign("--rebase", value) == "--rebase=" + value;
      AddOptions(g, Flag.Assign("--rebase", value))
  }

  /** `--recurse-submodules[=<value>]`: Control fetching of populated submodules. The bare flag when `value` is empty. */
  function RecurseSubmodules(value: string, g: Cmd): (r: Cmd)
    ensures |value| == 0 ==> Appends(g, r, ["--recurse-submodules"])
    ensures |value| > 0 ==> Appends(g, r, ["--recurse-submodules=" + value])
    ensures Flag.OptionalValue("--recurse-submodules", r[|g|]) == Some(value)
  {
    if |value| == 0 then
      Flag.ParseName("--recurse-submodules");
      AddOptions(g, "--recurse-submodules")
    else
      Flag.ParseAssign("--recurse-submodules", value);
      assert Flag.Assign("--recurse-submodules", value) == "--recurse-submodules=" + value;
      AddOptions(g, Flag.Assign("--recurse-submodules", value))
  }

  /** `--shallow-exclude=<revision>`: Shorten a shallow history to exclude commits reachable from `revision`. Emitted even when `revision` is empty. */
  function ShallowExclude(revision: string, g: Cmd): (r: Cmd)
    ensures Appends(g, r, ["--shallow-exclude=" + revision])
    ensures Flag.Value("--shallow-exclude", r[|g|]) == Some(revision)
  {
    Flag.ParseAssign("--shallow-exclude", revision);
    assert Flag.Assign("--shallow-exclude", revision) == "--shallow-exclude=" + revision;
    AddOptions(g, Flag.Assign("--shallow-exclude", revision))
  }

  /** `--shallow-since=<date>`: Shorten a shallow history to commits after `date`. Emitted even when `date` is empty. */
  function ShallowSince(date: string, g: Cmd): (r: Cmd)
    ensures Appends(g, r, ["--shallow-since=" + date])
    ensures Flag.Value("--shallow-since", r[|g|]) == Some(date)
  {
    Flag.ParseAssign("--shallow-since", date);
    assert Flag.Assign("--shallow-since", date) == "--shallow-since=" + date;
    AddOptions(g, Flag.Assign("--shallow-since", date))
  }

  /** `--squash`: Produce the merge result without committing it. */
  function Squash(g: Cmd): (r: Cmd)
    ensures Appends(g, r, ["--squash"])
  {
    AddOptions(g, "--squash")
  }

  /** `--stat`: Show a diffstat after the merge. */
  function Stat(g: Cmd): (r: Cmd)
    ensures Appends(g, r, ["--stat"])
  {
    AddOptions(g, "--stat")
  }

  /** `--strategy=<value>`: Merge with strategy `value`. Emitted even when `value` is empty. */
  function Strategy(value: string, g: Cmd): (r: Cmd)
    ensures Appends(g, r, ["--strategy=" + value])
    ensures Flag.Value("--strategy", r[|g|]) == Some(value)
  {
    Flag.ParseAssign("--strategy", value);
    assert Flag.Assign("--strategy", value) == "--strategy=" + value;
    AddOptions(g, Flag.Assign("--strategy", value))
  }

  /** `--strategy-option=<option>`: Pass `option` to the merge strategy. Emitted even when `option` is empty. */
  function StrategyOption(option: string, g: Cmd): (r: Cmd)
    ensures Appends(g, r, ["--strategy-option=" + option])
    ensures Flag.Value("--strategy-option", r[|g|]) == Some(option)
  {
    Flag.ParseAssign("--strategy-option", option);
    assert Flag.Assign("--strategy-option", option) == "--strategy-option=" + option;
    AddOptions(g, Flag.Assign("--strategy-option", option))
  }

  /** `--unshallow`: Turn a shallow repository into a complete one. */
  function Unshallow(g: Cmd): (r: Cmd)
    ensures Appends(g, r, ["--unshallow"])
  {
    AddOptions(g, "--unshallow")
  }

  /** `--update-head-ok`: Allow updating the head of the current branch. */
  function UpdateHeadOk(g: Cmd): (r: Cmd)
    ensures Appends(g, r, ["--update-head-ok"])
  {
    AddOptions(g, "--update-head-ok")
  }

  /** `--update-shallow`: Accept refs that need .git/shallow updated. */
  function UpdateShallow(g: Cmd): (r: Cmd)
    ensures Appends(g, r, ["--update-shallow"])
  {
    AddOptions(g, "--update-shallow")
  }

  /** `--upload-pack <value>`: Use `value` as the upload-pack program on the remote side. Flag and value are two separate tokens. */
  function UploadPack(value: string, g: Cmd): (r: Cmd)
    ensures Appends(g, r, ["--upload-pack", value])
  {
    AddOptions(AddOptions(g, "--upload-pack"), value)
  }

  /** `--verbose`: Verbose fetch and merge. */
  function Verbose(g: Cmd): (r: Cmd)
    ensures Appends(g, r, ["--verbose"])
  {
    AddOptions(g, "--verbose")
  }

  /** `--verify-signatures`: Verify the signature of the merged tip. */
  function VerifySignatures(g: Cmd): (r: Cmd)
    ensures Appends(g, r, ["--verify-signatures"])
  {
    AddOptions(g, "--verify-signatures")
  }

  /** The remote repository, as one verbatim positional token. */
  function Repository(remote: string, g: Cmd): (r: Cmd)
    ensures Appends(g, r, [remote])
  {
    AddOptions(g, remote)
  }

  /** The refspecs, each as its own verbatim token, in the order given. */
  function Refspec(refs: seq<string>, g: Cmd): (r: Cmd)
    ensures Appends(g, r, refs)
    ensures |refs| == 0 ==> r == g
  {
    AddEach(g, refs)
  }

  /**
   `--strategy=v` and `--strategy-option=w` never coincide: the first '='
   ends the flag name, so one name being a prefix of the other is harmless.
   */
  lemma StrategyTokensDistinct(v: string, w: string, g: Cmd)
    ensures Strategy(v, g) != StrategyOption(w, g)
  {
    Flag.AssignDistinct("--strategy", "--strategy-option", v, w);
  }

  /** `--recurse-submodules[=v]` and `--no-recurse-submodules[=w]` never coincide. */
  lemma SubmoduleTokensDistinct(v: string, w: string, g: Cmd)
    ensures RecurseSubmodules(v, g) != NoRecurseSubmodules(w, g)
  {
    Flag.OptionalAssignDistinct("--recurse-submodules", "--no-recurse-submodules", v, w);
  }

  /** Distinct values of an optional-valued flag give distinct commands. */
  lemma LogInjective(n1: string, n2: string, g: Cmd)
    ensures Log(n1, g) == Log(n2, g) ==> n1 == n2
  {
    Flag.OptionalAssignInjective("--log", n1, n2);
  }
}
