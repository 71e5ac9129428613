/** A value that may be absent. */
module Optional {
  datatype Option<T> = None | Some(value: T)
}

/**
 Long-option tokens: the bare `--name` and the assignment `--name=value` that
 pull/pull.go formats with `fmt.Sprintf("--name=%s", value)`. A token is read
 back by splitting it at its first '=', so a name never contains one while a
 value may.
 */
module Flag {
  import opened Optional

  /** A long option split into its name and, after the first '=', its value. */
  datatype LongOption = LongOption(name: string, value: Option<string>)

  /** A flag name as the options spell it: no '=' inside. */
  predicate IsName(flag: string) {
    '=' !in flag
  }

  /** The token spelling of a long option. */
  function Format(o: LongOption): string {
    match o.value
    case None => o.name
    case Some(v) => o.name + "=" + v
  }

  /** Splits a token at its first '='; the inverse of `Format` on every token. */
  function Parse(t: string): (o: LongOption)
    ensures IsName(o.name)
    ensures Format(o) == t
    decreases |t|
  {
    if |t| == 0 then LongOption("", None)
    else if t[0] == '=' then LongOption("", Some(t[1..]))
    else
      var rest := Parse(t[1..]);
      var o := LongOption([t[0]] + rest.name, rest.value);
      assert Format(o) == [t[0]] + Format(rest);
      o
  }

  /** `Format` loses nothing when the name holds no '='. */
  lemma {:induction false} ParseFormat(o: LongOption)
    requires IsName(o.name)
    ensures Parse(Format(o)) == o
    decreases |o.name|
  {
    if |o.name| == 0 {
      if o.value.Some? {
        assert Format(o) == "=" + o.value.value;
      } else {
        assert Format(o) == [];
      }
    } else {
      var tail := LongOption(o.name[1..], o.value);
      ParseFormat(tail);
      assert Format(o) == [o.name[0]] + Format(tail);
      assert o.name == [o.name[0]] + tail.name;
    }
  }

  /** `--flag=value`, the formatting of every valued option. */
  function Assign(flag: string, value: string): (t: string)
    ensures t == flag + "=" + value
    ensures |t| == |flag| + 1 + |value|
    ensures t[..|flag| + 1] == flag + "="
    ensures t[|flag| + 1..] == value
  {
    Format(LongOption(flag, Some(value)))
  }

  /**
   The token of an option whose value is optional: the bare flag for the empty
   value, `--flag=value` otherwise.
   */
  function OptionalAssign(flag: string, value: string): (t: string)
    ensures |value| == 0 <==> t == flag
    ensures |value| > 0 ==> t == Assign(flag, value)
    ensures t != flag + "="
  {
    if |value| == 0 then flag else Assign(flag, value)
  }

  /** The value carried by `t` when `t` is `flag=value`. */
  function Value(flag: string, t: string): Option<string> {
    var o := Parse(t);
    if o.name == flag then o.value else None
  }

  /**
   The value of an optional-valued `flag` in `t`: the empty value for the bare
   flag, the text after '=' for a non-empty assignment, and nothing for any
   other token (including `flag=`, which no option produces).
   */
  function OptionalValue(flag: string, t: string): Option<string> {
    var o := Parse(t);
    if o.name != flag then None
    else
      match o.value
      case None => Some("")
      case Some(v) => if |v| == 0 then None else Some(v)
  }

  lemma ParseName(flag: string)
    requires IsName(flag)
    ensures Parse(flag) == LongOption(flag, None)
  {
    ParseFormat(LongOption(flag, None));
  }

  lemma ParseAssign(flag: string, value: string)
    requires IsName(flag)
    ensures Parse(Assign(flag, value)) == LongOption(flag, Some(value))
  {
    ParseFormat(LongOption(flag, Some(value)));
  }

  /** A token carries value `v` for `flag` exactly when it is `flag=v`. */
  lemma ValueIff(flag: string, t: string, v: string)
    requires IsName(flag)
    ensures Value(flag, t) == Some(v) <==> t == Assign(flag, v)
  {
    if t == Assign(flag, v) {
      ParseAssign(flag, v);
    }
  }

  /** The optional-valued token of `v` is the only token decoding to `v`. */
  lemma OptionalValueIff(flag: string, t: string, v: string)
    requires IsName(flag)
    ensures OptionalValue(flag, t) == Some(v) <==> t == OptionalAssign(flag, v)
  {
    if |v| == 0 {
      ParseName(flag);
    } else {
      ParseAssign(flag, v);
    }
  }

  /** Distinct values give distinct optional-valued tokens. */
  lemma OptionalAssignInjective(flag: string, v1: string, v2: string)
    requires IsName(flag)
    ensures OptionalAssign(flag, v1) == OptionalAssign(flag, v2) ==> v1 == v2
  {
    OptionalValueIff(flag, OptionalAssign(flag, v1), v1);
    OptionalValueIff(flag, OptionalAssign(flag, v2), v2);
  }

  /** Different long options with '='-free names are spelled differently. */
  lemma FormatInjective(a: LongOption, b: LongOption)
    requires IsName(a.name) && IsName(b.name)
    ensures Format(a) == Format(b) ==> a == b
  {
    ParseFormat(a);
    ParseFormat(b);
  }

  /** Assignments to different flags never coincide, whatever the values. */
  lemma AssignDistinct(flag1: string, flag2: string, v1: string, v2: string)
    requires IsName(flag1) && IsName(flag2) && flag1 != flag2
    ensures Assign(flag1, v1) != Assign(flag2, v2)
  {
    FormatInjective(LongOption(flag1, Some(v1)), LongOption(flag2, Some(v2)));
  }

  /** Optional-valued tokens of different flags never coincide, whatever the values. */
  lemma OptionalAssignDistinct(flag1: string, flag2: string, v1: string, v2: string)
    requires IsName(flag1) && IsName(flag2) && flag1 != flag2
    ensures OptionalAssign(flag1, v1) != OptionalAssign(flag2, v2)
  {
    var a := LongOption(flag1, if |v1| == 0 then None else Some(v1));
    var b := LongOption(flag2, if |v2| == 0 then None else Some(v2));
    FormatInjective(a, b);
  }
}
