/** The command line of GlassFish's `asadmin` tool as both modules build it:
    the connection options every subcommand shares, and a reader of the fixed
    layout the builders produce (not `asadmin`'s full option grammar) back
    into options, subcommand and operands. The reader is the partner of the
    builders: each builder's result is proved to read back as exactly the
    configuration it was built from. */
module Asadmin {
  import opened Wrappers

  /** The module parameters that shape every command: `asadmin_path`,
      `glassfish_user`, `glassfish_password_file` and `glassfish_port`.
      `None` stands for Python's `None`; an empty string is a value. */
  datatype AdminOptions = AdminOptions(
    asadminPath: string,
    user: string,
    passwordFile: Option<string>,
    port: Option<string>)

  /** A parsed ordinary command: options, subcommand name, operands. */
  datatype Invocation = Invocation(options: AdminOptions, subcommand: string, operands: seq<string>)

  const PasswordFileFlag := "--passwordfile"
  const PortFlag := "--port"
  const PortBaseFlag := "--portbase"

  /** `[flag, value]` when the parameter is set, nothing when it is `None`. */
  function OptionalFlag(flag: string, value: Option<string>): seq<string>
  {
    if value.Some? then [flag, value.value] else []
  }

  /** The shared prefix of every ordinary command:
      path, `--user user`, then `--passwordfile` and `--port` when set. */
  function BaseArgs(o: AdminOptions): seq<string>
  {
    [o.asadminPath, "--user", o.user]
      + OptionalFlag(PasswordFileFlag, o.passwordFile)
      + OptionalFlag(PortFlag, o.port)
  }

  /** An ordinary command: the shared prefix, then the subcommand and its
      operands. */
  function SubcommandArgs(o: AdminOptions, subcommand: string, operands: seq<string>): seq<string>
  {
    BaseArgs(o) + [subcommand] + operands
  }

  /** Reads the shared prefix: path, `--user`, an optional `--passwordfile`
      and an optional `--port`, in that order; returns what follows. */
  function ParseBase(args: seq<string>): Option<(AdminOptions, seq<string>)>
  {
    if |args| < 3 || args[1] != "--user" then None
    else
      var i := if |args| >= 5 && args[3] == PasswordFileFlag then 5 else 3;
      var pf := if i == 5 then Some(args[4]) else None;
      var j := if |args| >= i + 2 && args[i] == PortFlag then i + 2 else i;
      var port := if j == i + 2 then Some(args[i + 1]) else None;
      Some((AdminOptions(args[0], args[2], pf, port), args[j..]))
  }

  /** Reads an ordinary command. */
  function ParseInvocation(args: seq<string>): Option<Invocation>
  {
    match ParseBase(args)
    case None => None
    case Some((o, rest)) =>
      if rest == [] then None else Some(Invocation(o, rest[0], rest[1..]))
  }

  /** The shared prefix reads back as the options it was built from, whatever
      follows it, as long as what follows does not start with an option flag. */
  lemma BaseRoundTrip(o: AdminOptions, rest: seq<string>)
    requires rest == [] || (rest[0] != PasswordFileFlag && rest[0] != PortFlag)
    ensures ParseBase(BaseArgs(o) + rest) == Some((o, rest))
  {
    var args := BaseArgs(o) + rest;
    var i := if o.passwordFile.Some? then 5 else 3;
    assert args[..3] == [o.asadminPath, "--user", o.user];
    if o.passwordFile.Some? {
      assert args[3] == PasswordFileFlag && args[4] == o.passwordFile.value;
    }
    if o.port.Some? {
      assert args[i] == PortFlag && args[i + 1] == o.port.value;
      assert args[i + 2..] == rest;
    } else {
      assert args[i..] == rest;
    }
  }

  /** Conversely, whatever reads as options and a remainder is the prefix of
      those options followed by that remainder. */
  lemma BaseParsed(args: seq<string>)
    requires ParseBase(args).Some?
    ensures args == BaseArgs(ParseBase(args).value.0) + ParseBase(args).value.1
  {
  }

  /** An ordinary command reads back as its options, subcommand and operands,
      for any subcommand name that is not an option flag. */
  lemma {:induction false} SubcommandRoundTrip(o: AdminOptions, subcommand: string, operands: seq<string>)
    requires subcommand != PasswordFileFlag && subcommand != PortFlag
    ensures ParseInvocation(SubcommandArgs(o, subcommand, operands)) == Some(Invocation(o, subcommand, operands))
  {
    assert SubcommandArgs(o, subcommand, operands) == BaseArgs(o) + ([subcommand] + operands);
    BaseRoundTrip(o, [subcommand] + operands);
  }

  /** Two ordinary commands are equal only when built from the same options,
      subcommand and operands. */
  lemma SubcommandArgsInjective(o1: AdminOptions, s1: string, ops1: seq<string>,
                                o2: AdminOptions, s2: string, ops2: seq<string>)
    requires s1 != PasswordFileFlag && s1 != PortFlag
    requires s2 != PasswordFileFlag && s2 != PortFlag
    requires SubcommandArgs(o1, s1, ops1) == SubcommandArgs(o2, s2, ops2)
    ensures o1 == o2 && s1 == s2 && ops1 == ops2
  {
    SubcommandRoundTrip(o1, s1, ops1);
    SubcommandRoundTrip(o2, s2, ops2);
  }
}
