# A Dafny model of the `git pull` option builder

This project models `pull/pull.go` of go-git-cmd-wrapper: the options that
build the argument list of a `git pull` invocation. Each exported Go function
is either an option itself (a `func(*types.Cmd)`, the 31 toggles such as `All`
or `Force`) or returns one for its argument (`Depth(value)`, `Log(n)`,
`UploadPack(value)`, `Refspec(refs...)`, ...). Every option does one thing:
it appends tokens to the command through `AddOptions`.

The model treats a command as an immutable `seq<string>` and each option as a
pure function from command to command.

- `Command` (`command.dfy`): the command as a token list. `AddOptions` appends
  one token. `AddEach` is the loop of `Refspec`. `Appends(g, r, ts)` says that
  `r` is `g`, unchanged, followed by exactly `ts`.
- `Flag` (`flag.dfy`): the two token shapes. `--name=value` is what
  `fmt.Sprintf("--name=%s", v)` produces. The optional form is the bare
  `--name` for the empty value and `--name=value` otherwise. Tokens are read
  back by splitting at the first '=' (`Parse`), which gives the inverse
  (`Value`, `OptionalValue`) that the round-trip lemmas use.
- `Pull` (`pull.dfy`): one function per exported Go function. The argument
  comes first and the command second, so `Log(n)(g)` in Go is
  `Pull.Log(n, g)`. Each contract says the command is kept as a prefix and
  gives exactly the tokens added. For valued options it also says that the
  value can be read back from the token.
- `Invocation` (`invocation.dfy`): the option values as a datatype, with one
  constructor per Go function; `ShapeOf` groups them by the shape of the
  tokens they add.
  `Apply` runs one option value on a command and `Run` runs a list in order.
  Lemmas cover composition, token counts, an ordering example (`Force`,
  `Quiet`, `Depth("5")`), repeated flags, and the ambiguity of verbatim
  tokens.

Only `Log`, `Rebase`, `RecurseSubmodules` and `NoRecurseSubmodules` emit the
bare flag for an empty value. `Deepen`, `Depth`, `ShallowExclude`,
`ShallowSince`, `Strategy` and `StrategyOption` always emit `--name=value`,
so `Depth("")` gives `--depth=`.

## Model

| member | source | states |
|---|---|---|
| Command.AddOptions | pull/pull.go:12 | The one mutation every option performs: the command gains exactly one token at its end and the tokens before it are unchanged (the behaviour assumed of `types.Cmd.AddOptions`). |
| Command.AddEach | pull/pull.go:313-315 | Calling `AddOptions` once per element, in order, leaves the old command as a prefix followed by exactly those elements in their original order. |
| Flag.Parse | pull/pull.go:45 | Splitting a token at its first '=' yields an '='-free name and an optional value that format back to exactly the same token, for every token. |
| Flag.ParseFormat | pull/pull.go:45 | Formatting a name without '=' (and optionally `=value`) and splitting the result gives back the same name and value, so `--name=%s` loses nothing. |
| Flag.Assign | pull/pull.go:45 | `--name=` followed by the value: the token is one longer than name plus value, and removing the `name=` prefix returns the value exactly, even when it is empty. |
| Flag.ParseAssign | pull/pull.go:45 | Reading back a `--name=value` token with an '='-free name gives exactly that name and value: the formatting of every valued option loses nothing, the empty value included. |
| Flag.OptionalAssign | pull/pull.go:103-107 | The bare flag exactly when the value is empty, otherwise `flag=value`; never the empty assignment `flag=`. |
| Flag.ValueIff | pull/pull.go:53 | A token carries value `v` for an '='-free flag if and only if it is `flag=v`. |
| Flag.OptionalValueIff | pull/pull.go:103-107 | For an optional-valued flag, a token decodes to value `v` if and only if it is the token the option emits for `v`, covering both the bare and the assigned form. |
| Flag.OptionalAssignInjective | pull/pull.go:103-107 | Distinct values of an optional-valued flag give distinct tokens. |
| Flag.FormatInjective | pull/pull.go:249-261 | Two long options with '='-free names that are spelled alike are the same name and value. |
| Flag.AssignDistinct | pull/pull.go:249-261 | `flag1=v1` and `flag2=v2` differ for different '='-free flags, whatever the values. |
| Flag.OptionalAssignDistinct | pull/pull.go:149-157 | Optional-valued tokens of different '='-free flags differ, whether bare or assigned. |
| Pull.All | pull/pull.go:11-13 | Adds exactly one token, `--all`, after the unchanged command. |
| Pull.AllowUnrelatedHistories | pull/pull.go:19-21 | Adds exactly one token, `--allow-unrelated-histories`, after the unchanged command. |
| Pull.Append | pull/pull.go:25-27 | Adds exactly one token, `--append`, after the unchanged command. |
| Pull.Autostash | pull/pull.go:31-33 | Adds exactly one token, `--autostash`, after the unchanged command. |
| Pull.Commit | pull/pull.go:37-39 | Adds exactly one token, `--commit`, after the unchanged command. |
| Pull.Deepen | pull/pull.go:43-47 | Adds exactly one token, `--deepen=` followed by the value, after the unchanged command, also for the empty value; the value is read back from that token. |
| Pull.Depth | pull/pull.go:51-55 | Adds exactly one token, `--depth=` followed by the value, after the unchanged command, also for the empty value; the value is read back from that token. |
| Pull.Edit | pull/pull.go:59-61 | Adds exactly one token, `--edit`, after the unchanged command. |
| Pull.Ff | pull/pull.go:65-67 | Adds exactly one token, `--ff`, after the unchanged command. |
| Pull.FfOnly | pull/pull.go:71-73 | Adds exactly one token, `--ff-only`, after the unchanged command. |
| Pull.Force | pull/pull.go:77-79 | Adds exactly one token, `--force`, after the unchanged command. |
| Pull.Ipv4 | pull/pull.go:83-85 | Adds exactly one token, `--ipv4`, after the unchanged command. |
| Pull.Ipv6 | pull/pull.go:89-91 | Adds exactly one token, `--ipv6`, after the unchanged command. |
| Pull.Keep | pull/pull.go:95-97 | Adds exactly one token, `--keep`, after the unchanged command. |
| Pull.Log | pull/pull.go:101-109 | Adds exactly one token after the unchanged command: bare `--log` for the empty value, `--log=value` otherwise; the value is read back from that token. |
| Pull.NoAutostash | pull/pull.go:113-115 | Adds exactly one token, `--no-autostash`, after the unchanged command. |
| Pull.NoCommit | pull/pull.go:119-121 | Adds exactly one token, `--no-commit`, after the unchanged command. |
| Pull.NoEdit | pull/pull.go:125-127 | Adds exactly one token, `--no-edit`, after the unchanged command. |
| Pull.NoFf | pull/pull.go:131-133 | Adds exactly one token, `--no-ff`, after the unchanged command. |
| Pull.NoLog | pull/pull.go:137-139 | Adds exactly one token, `--no-log`, after the unchanged command. |
| Pull.NoRebase | pull/pull.go:143-145 | Adds exactly one token, `--no-rebase`, after the unchanged command. |
| Pull.NoRecurseSubmodules | pull/pull.go:149-157 | Adds exactly one token after the unchanged command: bare `--no-recurse-submodules` for the empty value, `--no-recurse-submodules=value` otherwise; the value is read back from that token. |
| Pull.NoSquash | pull/pull.go:161-163 | Adds exactly one token, `--no-squash`, after the unchanged command. |
| Pull.NoStat | pull/pull.go:167-169 | Adds exactly one token, `--no-stat`, after the unchanged command. |
| Pull.NoTags | pull/pull.go:173-175 | Adds exactly one token, `--no-tags`, after the unchanged command. |
| Pull.NoVerifySignatures | pull/pull.go:179-181 | Adds exactly one token, `--no-verify-signatures`, after the unchanged command. |
| Pull.Progress | pull/pull.go:185-187 | Adds exactly one token, `--progress`, after the unchanged command. |
| Pull.Quiet | pull/pull.go:191-193 | Adds exactly one token, `--quiet`, after the unchanged command. |
| Pull.Rebase | pull/pull.go:197-205 | Adds exactly one token after the unchanged command: bare `--rebase` for the empty value, `--rebase=value` otherwise; the value is read back from that token. |
| Pull.RecurseSubmodules | pull/pull.go:209-217 | Adds exactly one token after the unchanged command: bare `--recurse-submodules` for the empty value, `--recurse-submodules=value` otherwise; the value is read back from that token. |
| Pull.ShallowExclude | pull/pull.go:221-225 | Adds exactly one token, `--shallow-exclude=` followed by the value, after the unchanged command, also for the empty value; the value is read back from that token. |
| Pull.ShallowSince | pull/pull.go:229-233 | Adds exactly one token, `--shallow-since=` followed by the value, after the unchanged command, also for the empty value; the value is read back from that token. |
| Pull.Squash | pull/pull.go:237-239 | Adds exactly one token, `--squash`, after the unchanged command. |
| Pull.Stat | pull/pull.go:243-245 | Adds exactly one token, `--stat`, after the unchanged command. |
| Pull.Strategy | pull/pull.go:249-253 | Adds exactly one token, `--strategy=` followed by the value, after the unchanged command, also for the empty value; the value is read back from that token. |
| Pull.StrategyOption | pull/pull.go:257-261 | Adds exactly one token, `--strategy-option=` followed by the value, after the unchanged command, also for the empty value; the value is read back from that token. |
| Pull.Unshallow | pull/pull.go:266-268 | Adds exactly one token, `--unshallow`, after the unchanged command. |
| Pull.UpdateHeadOk | pull/pull.go:272-274 | Adds exactly one token, `--update-head-ok`, after the unchanged command. |
| Pull.UpdateShallow | pull/pull.go:278-280 | Adds exactly one token, `--update-shallow`, after the unchanged command. |
| Pull.UploadPack | pull/pull.go:284-289 | Adds exactly two tokens after the unchanged command: `--upload-pack`, then the value verbatim, whatever it is (empty included). |
| Pull.Verbose | pull/pull.go:293-295 | Adds exactly one token, `--verbose`, after the unchanged command. |
| Pull.VerifySignatures | pull/pull.go:299-301 | Adds exactly one token, `--verify-signatures`, after the unchanged command. |
| Pull.Repository | pull/pull.go:304-308 | Adds exactly one token after the unchanged command: the remote, verbatim. |
| Pull.Refspec | pull/pull.go:311-317 | Adds exactly the refs, each verbatim and in the given order, after the unchanged command; with no refs the command is unchanged. |
| Pull.StrategyTokensDistinct | pull/pull.go:249-261 | `--strategy=v` never equals `--strategy-option=w`, although one flag name is a prefix of the other. |
| Pull.SubmoduleTokensDistinct | pull/pull.go:149-217 | No token of `RecurseSubmodules` equals one of `NoRecurseSubmodules`, for any two values. |
| Pull.LogInjective | pull/pull.go:101-109 | Different `Log` values give different commands. |
| Invocation.Apply | pull/pull.go:11-317 | Applying any option value to a command keeps the command as an unchanged prefix. |
| Invocation.ApplyAppends | pull/pull.go:11-317 | Every option value, whatever its shape (plain flag, `--flag=value`, optional value, verbatim tokens), appends to any command exactly the tokens it appends to an empty one, and as many as its width. |
| Invocation.ApplyWidth | pull/pull.go:11-317 | An option adds two tokens if it is `UploadPack`, one per ref if it is `Refspec`, and exactly one otherwise. |
| Invocation.ApplyIgnoresPrefix | pull/pull.go:11-317 | What an option adds is the same whatever command it is applied to. |
| Invocation.Run | pull/pull.go:11-317 | Applying a list of options in order only appends, and adds exactly the sum of the options' token counts. |
| Invocation.RunConcat | pull/pull.go:11-317 | Applying two option lists one after the other is applying their concatenation. |
| Invocation.RunIgnoresPrefix | pull/pull.go:11-317 | A list of options adds the same tokens whatever command it starts from. |
| Invocation.RunCons | pull/pull.go:11-317 | A list runs its first option, then the rest. |
| Invocation.OrderExample | pull/pull.go:51-193 | `Force`, `Quiet`, `Depth("5")` on a fresh command give the sub-command then `--force`, `--quiet`, `--depth=5`, in that order. |
| Invocation.RepeatExample | pull/pull.go:77-79 | A toggle applied twice appears twice; nothing is de-duplicated. |
| Invocation.VerbatimTokensAreAmbiguous | pull/pull.go:284-308 | `Repository("--all")` builds the same command as `All`, and `UploadPack("--force")` the same as `Repository("--upload-pack")` then `Force`: verbatim tokens are not checked. |

## Left out

- `types.Cmd` is not part of this model. Its `AddOptions` is taken to append
  its one argument to the end of the token list, which is how every call in
  `pull/pull.go` uses it. `Command.New`, the command holding only the
  sub-command, is assumed in the same way.
- Running git (process execution, PATH lookup, output capture) is outside
  the builder and is not modelled.
- `fmt.Sprintf` is modelled only for the `%s` verb these options use, as
  plain string concatenation.
- The Go closures are uncurried: `Depth(value)` returning a
  `func(*types.Cmd)` is `Pull.Depth(value, g)`. As a value that can be put
  in a list, it is `Invocation.Depth(value)` passed to `Invocation.Apply`.
- `Invocation.Refspec` holds the refs by value, as they were when the option
  was built. Go's `Refspec(refs...)` called as `Refspec(s...)` keeps the
  caller's slice without copying it, and the closure reads it only when it
  runs, so changing `s` in between changes the tokens added. The model has
  no mutable slices. The string-valued closures are not affected, because
  Go strings are immutable.
- What git does with the flags (fetching, merging, rebasing) is not
  modelled. The builder does not reject conflicting or repeated flags such
  as `Ff` with `FfOnly`, and neither does the model.
- Go's `len` counts bytes and the model's `|s|` counts characters. Both are
  zero exactly for the empty string, which is the only length test the
  source makes.
- Distinctness of flag tokens is proved only within each flag (different
  values give different tokens) and for the flag pairs whose names overlap
  (`Strategy`/`StrategyOption`, `RecurseSubmodules`/`NoRecurseSubmodules`).
  A decoder that maps every flag token back to its option is not part of the
  model: it would rest on comparing all 42 flag spellings (31 toggles, 6
  valued, 4 optional-valued and `--upload-pack`) character by
  character, which adds nothing about the builder itself.
