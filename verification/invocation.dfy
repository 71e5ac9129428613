/**
 Composing a `git pull` invocation: the option values the Go functions are or
 return, applied to a command one after another in the order given.
 */
module Invocation {
  import opened Command
  import Pull

  /**
   One option value per exported function of pull/pull.go: a toggle is the
   function itself, a parameterised option is the closure it returns for its
   argument.
   */
  datatype PullOption =
    | All
    | AllowUnrelatedHistories
    | Append
    | Autostash
    | Commit
    | Deepen(depth: string)
    | Depth(value: string)
    | Edit
    | Ff
    | FfOnly
    | Force
    | Ipv4
    | Ipv6
    | Keep
    | Log(n: string)
    | NoAutostash
    | NoCommit
    | NoEdit
    | NoFf
    | NoLog
    | NoRebase
    | NoRecurseSubmodules(value: string)
    | NoSquash
    | NoStat
    | NoTags
    | NoVerifySignatures
    | Progress
    | Quiet
    | Rebase(value: string)
    | RecurseSubmodules(value: string)
    | ShallowExclude(revision: string)
    | ShallowSince(date: string)
    | Squash
    | Stat
    | Strategy(value: string)
    | StrategyOption(option: string)
    | Unshallow
    | UpdateHeadOk
    | UpdateShallow
    | UploadPack(value: string)
    | Verbose
    | VerifySignatures
    | Repository(remote: string)
    | Refspec(refs: seq<string>)

  /** The number of tokens an option adds: two for `UploadPack`, one per ref for `Refspec`, one otherwise. */
  function Width(o: PullOption): nat {
    match o
    case UploadPack(_) => 2
    case Refspec(refs) => |refs|
    case _ => 1
  }

  /** Runs one option value on a command. */
  function Apply(g: Cmd, o: PullOption): (r: Cmd)
    ensures Extends(g, r)
  {
    match o
    case All => Pull.All(g)
    case AllowUnrelatedHistories => Pull.AllowUnrelatedHistories(g)
    case Append => Pull.Append(g)
    case Autostash => Pull.Autostash(g)
    case Commit => Pull.Commit(g)
    case Deepen(depth) => Pull.Deepen(depth, g)
    case Depth(value) => Pull.Depth(value, g)
    case Edit => Pull.Edit(g)
    case Ff => Pull.Ff(g)
    case FfOnly => Pull.FfOnly(g)
    case Force => Pull.Force(g)
    case Ipv4 => Pull.Ipv4(g)
    case Ipv6 => Pull.Ipv6(g)
    case Keep => Pull.Keep(g)
    case Log(n) => Pull.Log(n, g)
    case NoAutostash => Pull.NoAutostash(g)
    case NoCommit => Pull.NoCommit(g)
    case NoEdit => Pull.NoEdit(g)
    case NoFf => Pull.NoFf(g)
    case NoLog => Pull.NoLog(g)
    case NoRebase => Pull.NoRebase(g)
    case NoRecurseSubmodules(value) => Pull.NoRecurseSubmodules(value, g)
    case NoSquash => Pull.NoSquash(g)
    case NoStat => Pull.NoStat(g)
    case NoTags => Pull.NoTags(g)
    case NoVerifySignatures => Pull.NoVerifySignatures(g)
    case Progress => Pull.Progress(g)
    case Quiet => Pull.Quiet(g)
    case Rebase(value) => Pull.Rebase(value, g)
    case RecurseSubmodules(value) => Pull.RecurseSubmodules(value, g)
    case ShallowExclude(revision) => Pull.ShallowExclude(revision, g)
    case ShallowSince(date) => Pull.ShallowSince(date, g)
    case Squash => Pull.Squash(g)
    case Stat => Pull.Stat(g)
    case Strategy(value) => Pull.Strategy(value, g)
    case StrategyOption(option) => Pull.StrategyOption(option, g)
    case Unshallow => Pull.Unshallow(g)
    case UpdateHeadOk => Pull.UpdateHeadOk(g)
    case UpdateShallow => Pull.UpdateShallow(g)
    case UploadPack(value) => Pull.UploadPack(value, g)
    case Verbose => Pull.Verbose(g)
    case VerifySignatures => Pull.VerifySignatures(g)
    case Repository(remote) => Pull.Repository(remote, g)
    case Refspec(refs) => Pull.Refspec(refs, g)
  }

  /** How an option spells itself on the command line. */
  datatype Shape =
    | Toggle          // one fixed `--flag` token
    | Valued          // one `--flag=value` token, even for the empty value
    | OptionalValued  // `--flag` for the empty value, `--flag=value` otherwise
    | Verbatim        // tokens taken as given: `UploadPack`, `Repository`, `Refspec`

  function ShapeOf(o: PullOption): Shape {
    match o
    case Deepen(_) | Depth(_) | ShallowExclude(_) | ShallowSince(_) | Strategy(_) | StrategyOption(_) => Valued
    case Log(_) | NoRecurseSubmodules(_) | Rebase(_) | RecurseSubmodules(_) => OptionalValued
    case UploadPack(_) | Repository(_) | Refspec(_) => Verbatim
    case _ => Toggle
  }

  /** `Apply(g, o)` is `g` followed by the `Width(o)` tokens `o` adds to an empty command. */
  predicate AppendsOwnTokens(g: Cmd, o: PullOption) {
    Apply(g, o) == g + Apply([], o) && |Apply([], o)| == Width(o)
  }

  lemma ToggleAppends(g: Cmd, o: PullOption)
    requires ShapeOf(o) == Toggle
    ensures AppendsOwnTokens(g, o)
  {
    var r, e := Apply(g, o), Apply([], o);
    AppendsIsConcat(g, r, Added(g, r));
    AppendsIsConcat([], e, Added([], e));
    match o
    case All =>
    case AllowUnrelatedHistories =>
    case Append =>
    case Autostash =>
    case Commit =>
    case Edit =>
    case Ff =>
    case FfOnly =>
    case Force =>
    case Ipv4 =>
    case Ipv6 =>
    case Keep =>
    case NoAutostash =>
    case NoCommit =>
    case NoEdit =>
    case NoFf =>
    case NoLog =>
    case NoRebase =>
    case NoSquash =>
    case NoStat =>
    case NoTags =>
    case NoVerifySignatures =>
    case Progress =>
    case Quiet =>
    case Squash =>
    case Stat =>
    case Unshallow =>
    case UpdateHeadOk =>
    case UpdateShallow =>
    case Verbose =>
    case VerifySignatures =>
    case _ => assert false;
  }

  lemma ValuedAppends(g: Cmd, o: PullOption)
    requires ShapeOf(o) == Valued
    ensures AppendsOwnTokens(g, o)
  {
    var r, e := Apply(g, o), Apply([], o);
    AppendsIsConcat(g, r, Added(g, r));
    AppendsIsConcat([], e, Added([], e));
  }

  lemma OptionalValuedAppends(g: Cmd, o: PullOption)
    requires ShapeOf(o) == OptionalValued
    ensures AppendsOwnTokens(g, o)
  {
    var r, e := Apply(g, o), Apply([], o);
    AppendsIsConcat(g, r, Added(g, r));
    AppendsIsConcat([], e, Added([], e));
  }

  lemma VerbatimAppends(g: Cmd, o: PullOption)
    requires ShapeOf(o) == Verbatim
    ensures AppendsOwnTokens(g, o)
  {
    var r, e := Apply(g, o), Apply([], o);
    AppendsIsConcat(g, r, Added(g, r));
    AppendsIsConcat([], e, Added([], e));
  }

  /** Every option, whatever its shape, appends its own tokens and nothing else. */
  lemma ApplyAppends(g: Cmd, o: PullOption)
    ensures AppendsOwnTokens(g, o)
  {
    match ShapeOf(o)
    case Toggle => ToggleAppends(g, o);
    case Valued => ValuedAppends(g, o);
    case OptionalValued => OptionalValuedAppends(g, o);
    case Verbatim => VerbatimAppends(g, o);
  }

  /** An option adds exactly `Width(o)` tokens. */
  lemma ApplyWidth(g: Cmd, o: PullOption)
    ensures |Apply(g, o)| == |g| + Width(o)
  {
    ApplyAppends(g, o);
  }

  /** What an option adds does not depend on the command it is added to. */
  lemma ApplyIgnoresPrefix(g: Cmd, o: PullOption)
    ensures Apply(g, o) == g + Apply([], o)
  {
    ApplyAppends(g, o);
  }

  /** The number of tokens a list of options adds. */
  function Count(opts: seq<PullOption>): nat {
    if |opts| == 0 then 0 else Width(opts[0]) + Count(opts[1..])
  }

  /** Applies the options in order, as the builder does with its variadic list. */
  function Run(g: Cmd, opts: seq<PullOption>): (r: Cmd)
    ensures Extends(g, r)
    ensures |r| == |g| + Count(opts)
    decreases |opts|
  {
    if |opts| == 0 then g
    else
      ApplyWidth(g, opts[0]);
      Run(Apply(g, opts[0]), opts[1..])
  }

  /** Running two lists is running their concatenation. */
  lemma {:induction false} RunConcat(g: Cmd, a: seq<PullOption>, b: seq<PullOption>)
    ensures Run(g, a + b) == Run(Run(g, a), b)
    decreases |a|
  {
    if |a| == 0 {
      assert a + b == b;
    } else {
      assert (a + b)[1..] == a[1..] + b;
      RunConcat(Apply(g, a[0]), a[1..], b);
    }
  }

  /** A run only appends, and what it appends does not depend on the prefix. */
  lemma {:induction false} RunIgnoresPrefix(g: Cmd, opts: seq<PullOption>)
    ensures Run(g, opts) == g + Run([], opts)
    decreases |opts|
  {
    if |opts| > 0 {
      var e, rest := Apply([], opts[0]), opts[1..];
      RunStep(g, opts);
      RunStep([], opts);
      RunIgnoresPrefix(g + e, rest);
      RunIgnoresPrefix(e, rest);
      Regroup(g, e, Run([], rest));
    }
  }

  /**
   The sequence identities `RunIgnoresPrefix` needs, proved apart from the
   facts about `Run` so that the solver meets them in a small context.
   */
  lemma Regroup(g: seq<string>, e: seq<string>, x: seq<string>)
    ensures (g + e) + x == g + (e + x)
    ensures [] + e == e
  {
  }

  /** The first option of a run appends its own tokens, then the rest runs. */
  lemma RunStep(g: Cmd, opts: seq<PullOption>)
    requires |opts| > 0
    ensures Run(g, opts) == Run(g + Apply([], opts[0]), opts[1..])
  {
    ApplyIgnoresPrefix(g, opts[0]);
  }

  /** Running a list is running its head, then its tail. */
  lemma RunCons(g: Cmd, o: PullOption, rest: seq<PullOption>)
    ensures Run(g, [o] + rest) == Run(Apply(g, o), rest)
  {
    assert ([o] + rest)[0] == o;
    assert ([o] + rest)[1..] == rest;
  }

  /** Running a single option is applying it. */
  lemma RunOne(g: Cmd, o: PullOption)
    ensures Run(g, [o]) == Apply(g, o)
  {
    RunCons(g, o, []);
    assert [o] + [] == [o];
  }

  /** An option that appends the single token `t` yields `g + [t]`. */
  lemma ApplyOne(g: Cmd, o: PullOption, t: string)
    requires Appends(g, Apply(g, o), [t])
    ensures Apply(g, o) == g + [t]
  {
    AppendsIsConcat(g, Apply(g, o), [t]);
  }

  // One-option steps for the examples below, each proved apart so that the
  // examples never unfold `Apply` themselves.

  lemma ForceOnce(g: Cmd)
    ensures Apply(g, Force) == g + ["--force"]
  {
    ApplyOne(g, Force, "--force");
  }

  lemma QuietOnce(g: Cmd)
    ensures Apply(g, Quiet) == g + ["--quiet"]
  {
    ApplyOne(g, Quiet, "--quiet");
  }

  /**
   Options land in the order given: `Force`, `Quiet`, `Depth("5")` on a fresh
   command give the sub-command followed by `--force --quiet --depth=5`.
   */
  lemma OrderExample(sub: string)
    ensures Run(New(sub), [Force, Quiet, Depth("5")]) == [sub, "--force", "--quiet", "--depth=5"]
  {
    var g0 := New(sub);
    var g1 := g0 + ["--force"];
    var g2 := g1 + ["--quiet"];
    ForceOnce(g0);
    QuietOnce(g1);
    DepthFive(g2);
    RunCons(g0, Force, [Quiet, Depth("5")]);
    assert [Force] + [Quiet, Depth("5")] == [Force, Quiet, Depth("5")];
    RunCons(g1, Quiet, [Depth("5")]);
    assert [Quiet] + [Depth("5")] == [Quiet, Depth("5")];
    RunOne(g2, Depth("5"));
  }

  lemma DepthFive(g: Cmd)
    ensures Apply(g, Depth("5")) == g + ["--depth=5"]
  {
    assert "--depth=" + "5" == "--depth=5";
    ApplyOne(g, Depth("5"), "--depth=5");
  }

  /** A toggle given twice is added twice: nothing is merged or de-duplicated. */
  lemma RepeatExample(g: Cmd)
    ensures Run(g, [Force, Force]) == g + ["--force", "--force"]
  {
    ForceOnce(g);
    ForceOnce(g + ["--force"]);
    RunCons(g, Force, [Force]);
    assert [Force] + [Force] == [Force, Force];
    RunOne(g + ["--force"], Force);
  }

  // One-option steps for the ambiguity example below.

  lemma RepositoryOnce(g: Cmd, remote: string)
    ensures Apply(g, Repository(remote)) == g + [remote]
  {
    ApplyOne(g, Repository(remote), remote);
  }

  lemma AllOnce(g: Cmd)
    ensures Apply(g, All) == g + ["--all"]
  {
    ApplyOne(g, All, "--all");
  }

  lemma UploadPackOnce(g: Cmd, value: string)
    ensures Apply(g, UploadPack(value)) == g + ["--upload-pack", value]
  {
    AppendsIsConcat(g, Apply(g, UploadPack(value)), ["--upload-pack", value]);
  }

  /**
   The verbatim tokens of `Repository`, `Refspec` and the value of
   `UploadPack` are not checked: different option lists can build the same
   command line, so the command line alone does not say which options made it.
   */
  lemma VerbatimTokensAreAmbiguous(g: Cmd)
    ensures Run(g, [Repository("--all")]) == Run(g, [All])
    ensures Run(g, [UploadPack("--force")]) == Run(g, [Repository("--upload-pack"), Force])
  {
    RunOne(g, Repository("--all"));
    RunOne(g, All);
    RepositoryOnce(g, "--all");
    AllOnce(g);
    RunOne(g, UploadPack("--force"));
    UploadPackOnce(g, "--force");
    var g1 := g + ["--upload-pack"];
    RepositoryOnce(g, "--upload-pack");
    ForceOnce(g1);
    RunCons(g, Repository("--upload-pack"), [Force]);
    assert [Repository("--upload-pack")] + [Force] == [Repository("--upload-pack"), Force];
    RunOne(g1, Force);
  }
}
