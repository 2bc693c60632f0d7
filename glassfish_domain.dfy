/** The `glassfish_domain` module: lists the clusters and, when the listing
    exits with a code of at least 1, creates the domain (unless it is the default
    `domain1`), starts it, enables secure administration and restarts it.
    The listing's exit code is an input; commands issued are recorded in a
    trace. */
module GlassfishDomain {
  import opened Wrappers
  import opened Asadmin

  const DefaultDomain := "domain1"
  const ListClustersSubcommand := "list-clusters"
  const CreateDomainSubcommand := "create-domain"
  const StartDomainSubcommand := "start-domain"
  const RestartDomainSubcommand := "restart-domain"
  const EnableSecureAdminSubcommand := "enable-secure-admin"

  // ---------------------------------------------------------------------
  // Argument lists

  function ListClustersArgs(o: AdminOptions): seq<string>
  {
    SubcommandArgs(o, ListClustersSubcommand, [])
  }

  /** `create-domain` comes right after the path, before `--user`, and the
      port is passed as `--portbase`; the domain name comes last. */
  function CreateDomainArgs(o: AdminOptions, domain: string): seq<string>
  {
    [o.asadminPath, CreateDomainSubcommand, "--user", o.user]
      + OptionalFlag(PasswordFileFlag, o.passwordFile)
      + OptionalFlag(PortBaseFlag, o.port)
      + [domain]
  }

  function StartDomainArgs(o: AdminOptions, domain: string): seq<string>
  {
    SubcommandArgs(o, StartDomainSubcommand, [domain])
  }

  function RestartDomainArgs(o: AdminOptions, domain: string): seq<string>
  {
    SubcommandArgs(o, RestartDomainSubcommand, [domain])
  }

  function EnableSecureAdminArgs(o: AdminOptions, domain: string): seq<string>
  {
    SubcommandArgs(o, EnableSecureAdminSubcommand, [domain])
  }

  /** Reads a `create-domain` command: path, `create-domain`, `--user`, the
      optional `--passwordfile` and `--portbase`, and the domain last. */
  function ParseCreateDomain(args: seq<string>): Option<(AdminOptions, string)>
  {
    if |args| < 5 || args[1] != CreateDomainSubcommand || args[2] != "--user" then None
    else
      var flags := args[4..|args| - 1];
      var domain := args[|args| - 1];
      if flags == [] then
        Some((AdminOptions(args[0], args[3], None, None), domain))
      else if |flags| == 2 && flags[0] == PasswordFileFlag then
        Some((AdminOptions(args[0], args[3], Some(flags[1]), None), domain))
      else if |flags| == 2 && flags[0] == PortBaseFlag then
        Some((AdminOptions(args[0], args[3], None, Some(flags[1])), domain))
      else if |flags| == 4 && flags[0] == PasswordFileFlag && flags[2] == PortBaseFlag then
        Some((AdminOptions(args[0], args[3], Some(flags[1]), Some(flags[3])), domain))
      else None
  }

  /** A `create-domain` command reads back as the options and domain it was
      built from, for every configuration. */
  lemma CreateDomainRoundTrip(o: AdminOptions, domain: string)
    ensures ParseCreateDomain(CreateDomainArgs(o, domain)) == Some((o, domain))
  {
    var args := CreateDomainArgs(o, domain);
    var flags := OptionalFlag(PasswordFileFlag, o.passwordFile) + OptionalFlag(PortBaseFlag, o.port);
    assert args[4..|args| - 1] == flags;
  }

  /** Conversely, what reads as a `create-domain` command is the one built
      from what was read. */
  lemma CreateDomainParsed(args: seq<string>)
    requires ParseCreateDomain(args).Some?
    ensures args == CreateDomainArgs(ParseCreateDomain(args).value.0, ParseCreateDomain(args).value.1)
  {
    var flags := args[4..|args| - 1];
    assert args == args[..4] + flags + [args[|args| - 1]];
  }

  /** `create-domain` does not follow the layout of the other commands: it
      comes before `--user`, and its option flags are `--passwordfile` and
      `--portbase`, never `--port`. */
  lemma CreateDomainLayout(o: AdminOptions, domain: string)
    ensures ParseInvocation(CreateDomainArgs(o, domain)) == None
    ensures CreateDomainArgs(o, domain)[1] == CreateDomainSubcommand
    ensures CreateDomainArgs(o, domain)[2] == "--user"
    ensures forall i :: 4 <= i < |CreateDomainArgs(o, domain)| - 1 && i % 2 == 0 ==>
      CreateDomainArgs(o, domain)[i] in {PasswordFileFlag, PortBaseFlag}
    ensures o.port.Some? <==>
      |CreateDomainArgs(o, domain)| >= 7 && CreateDomainArgs(o, domain)[|CreateDomainArgs(o, domain)| - 3] == PortBaseFlag
  {
  }

  /** Every ordinary command of the module reads back as its options,
      subcommand and operands: the domain name is the one operand of start,
      restart and enable-secure-admin, and list-clusters has none. */
  lemma CommandsReadBack(o: AdminOptions, domain: string)
    ensures ParseInvocation(ListClustersArgs(o)) == Some(Invocation(o, ListClustersSubcommand, []))
    ensures ParseInvocation(StartDomainArgs(o, domain)) == Some(Invocation(o, StartDomainSubcommand, [domain]))
    ensures ParseInvocation(RestartDomainArgs(o, domain)) == Some(Invocation(o, RestartDomainSubcommand, [domain]))
    ensures ParseInvocation(EnableSecureAdminArgs(o, domain))
         == Some(Invocation(o, EnableSecureAdminSubcommand, [domain]))
  {
    SubcommandRoundTrip(o, ListClustersSubcommand, []);
    SubcommandRoundTrip(o, StartDomainSubcommand, [domain]);
    SubcommandRoundTrip(o, RestartDomainSubcommand, [domain]);
    SubcommandRoundTrip(o, EnableSecureAdminSubcommand, [domain]);
  }

  /** Builds the shared prefix by extending an empty list. */
  method CreateBaseCmd(o: AdminOptions) returns (args: seq<string>)
    ensures args == BaseArgs(o)
    ensures ParseBase(args) == Some((o, []))
  {
    args := [];
    args := args + [o.asadminPath];
    args := args + ["--user", o.user];
    if o.passwordFile.Some? {
      args := args + [PasswordFileFlag, o.passwordFile.value];
    }
    if o.port.Some? {
      args := args + [PortFlag, o.port.value];
    }
    BaseRoundTrip(o, []);
    assert BaseArgs(o) + [] == args;
  }

  method CreateClusterListCmd(o: AdminOptions) returns (args: seq<string>)
    ensures args == ListClustersArgs(o)
  {
    args := CreateBaseCmd(o);
    args := args + [ListClustersSubcommand];
  }

  method CreateDomainAddCmd(o: AdminOptions, domain: string) returns (args: seq<string>)
    ensures args == CreateDomainArgs(o, domain)
    ensures ParseCreateDomain(args) == Some((o, domain))
  {
    args := [];
    args := args + [o.asadminPath];
    args := args + [CreateDomainSubcommand];
    args := args + ["--user", o.user];
    if o.passwordFile.Some? {
      args := args + [PasswordFileFlag, o.passwordFile.value];
    }
    if o.port.Some? {
      args := args + [PortBaseFlag, o.port.value];
    }
    args := args + [domain];
    CreateDomainRoundTrip(o, domain);
  }

  method CreateDomainStartCmd(o: AdminOptions, domain: string) returns (args: seq<string>)
    ensures args == StartDomainArgs(o, domain)
  {
    args := CreateBaseCmd(o);
    args := args + [StartDomainSubcommand];
    args := args + [domain];
  }

  method CreateDomainRestartCmd(o: AdminOptions, domain: string) returns (args: seq<string>)
    ensures args == RestartDomainArgs(o, domain)
  {
    args := CreateBaseCmd(o);
    args := args + [RestartDomainSubcommand];
    args := args + [domain];
  }

  method CreateEnableSecureAdminCmd(o: AdminOptions, domain: string) returns (args: seq<string>)
    ensures args == EnableSecureAdminArgs(o, domain)
  {
    args := CreateBaseCmd(o);
    args := args + [EnableSecureAdminSubcommand];
    args := args + [domain];
  }

  // ---------------------------------------------------------------------
  // Provisioning decision

  /** The commands of a run, before they are rendered as arguments. */
  datatype Step = ListClusters | CreateDomain | StartDomain | EnableSecureAdmin | RestartDomain

  /** The steps a run takes given the listing's exit code: only the listing
      when it is below 1; otherwise creation (except for the default
      domain), start, secure administration and restart. */
  function Steps(rc: int, domain: string): seq<Step>
  {
    if rc < 1 then [ListClusters]
    else
      [ListClusters]
        + (if domain != DefaultDomain then [CreateDomain] else [])
        + [StartDomain, EnableSecureAdmin, RestartDomain]
  }

  function StepArgs(o: AdminOptions, domain: string, step: Step): seq<string>
  {
    match step
    case ListClusters => ListClustersArgs(o)
    case CreateDomain => CreateDomainArgs(o, domain)
    case StartDomain => StartDomainArgs(o, domain)
    case EnableSecureAdmin => EnableSecureAdminArgs(o, domain)
    case RestartDomain => RestartDomainArgs(o, domain)
  }

  function Render(o: AdminOptions, domain: string, steps: seq<Step>): (cmds: seq<seq<string>>)
    ensures |cmds| == |steps|
  {
    seq(|steps|, i requires 0 <= i < |steps| => StepArgs(o, domain, steps[i]))
  }

  /** Each step renders to its own command: a trace determines the steps
      that produced it. */
  lemma StepArgsInjective(o: AdminOptions, domain: string, s1: Step, s2: Step)
    requires StepArgs(o, domain, s1) == StepArgs(o, domain, s2)
    ensures s1 == s2
  {
    if s1 == CreateDomain || s2 == CreateDomain {
      var args := CreateDomainArgs(o, domain);
      assert args[1] == CreateDomainSubcommand;
    } else {
      var sub1 := StepSubcommand(s1);
      var sub2 := StepSubcommand(s2);
      var ops := if s1 == ListClusters then [] else [domain];
      var ops2 := if s2 == ListClusters then [] else [domain];
      SubcommandArgsInjective(o, sub1, ops, o, sub2, ops2);
    }
  }

  /** The subcommand name of an ordinary step. */
  function StepSubcommand(step: Step): string
    requires step != CreateDomain
  {
    match step
    case ListClusters => ListClustersSubcommand
    case StartDomain => StartDomainSubcommand
    case EnableSecureAdmin => EnableSecureAdminSubcommand
    case RestartDomain => RestartDomainSubcommand
  }

  /** What the decision promises: the listing always runs first and only
      once; more follows exactly when the exit code is at least 1; creation
      runs exactly when, in addition, the domain is not the default one, and
      then right after the listing; start, secure administration and
      restart close the run in that order. */
  lemma StepsOrder(rc: int, domain: string)
    ensures Steps(rc, domain)[0] == ListClusters
    ensures forall i :: 0 < i < |Steps(rc, domain)| ==> Steps(rc, domain)[i] != ListClusters
    ensures |Steps(rc, domain)| > 1 <==> rc >= 1
    ensures CreateDomain in Steps(rc, domain) <==> rc >= 1 && domain != DefaultDomain
    ensures CreateDomain in Steps(rc, domain) ==> Steps(rc, domain)[1] == CreateDomain
    ensures rc >= 1 ==> Steps(rc, domain)[|Steps(rc, domain)| - 3..] == [StartDomain, EnableSecureAdmin, RestartDomain]
  {
  }

  /** One run of the module, given the exit code of the listing. The branch
      for a code of at least 1 is modelled as written, although the host aborts
      the run on a non-zero listing code before the test is reached. */
  method Run(o: AdminOptions, domain: string, rc: int) returns (changed: bool, trace: seq<seq<string>>)
    ensures trace == Render(o, domain, Steps(rc, domain))
    ensures changed <==> rc >= 1
    ensures changed <==> |trace| > 1
    ensures trace[0] == ListClustersArgs(o)
    ensures CreateDomainArgs(o, domain) in trace <==> rc >= 1 && domain != DefaultDomain
    ensures changed ==>
      trace[|trace| - 3..] == [StartDomainArgs(o, domain), EnableSecureAdminArgs(o, domain), RestartDomainArgs(o, domain)]
  {
    var listCmd := CreateClusterListCmd(o);
    trace := [listCmd];
    ghost var steps := [ListClusters];
    changed := false;
    if rc >= 1 {
      if domain != DefaultDomain {
        var createCmd := CreateDomainAddCmd(o, domain);
        RenderAppend(o, domain, steps, CreateDomain);
        trace, steps := trace + [createCmd], steps + [CreateDomain];
      }
      changed := true;
      var startCmd := CreateDomainStartCmd(o, domain);
      RenderAppend(o, domain, steps, StartDomain);
      trace, steps := trace + [startCmd], steps + [StartDomain];
      var secureCmd := CreateEnableSecureAdminCmd(o, domain);
      RenderAppend(o, domain, steps, EnableSecureAdmin);
      trace, steps := trace + [secureCmd], steps + [EnableSecureAdmin];
      var restartCmd := CreateDomainRestartCmd(o, domain);
      RenderAppend(o, domain, steps, RestartDomain);
      trace, steps := trace + [restartCmd], steps + [RestartDomain];
    }
    assert steps == Steps(rc, domain);
    TraceFacts(o, domain, rc);
  }

  lemma RenderAppend(o: AdminOptions, domain: string, steps: seq<Step>, step: Step)
    ensures Render(o, domain, steps + [step]) == Render(o, domain, steps) + [StepArgs(o, domain, step)]
  {
  }

  /** The rendered trace keeps the order of the steps. */
  lemma TraceFacts(o: AdminOptions, domain: string, rc: int)
    ensures |Render(o, domain, Steps(rc, domain))| > 1 <==> rc >= 1
    ensures Render(o, domain, Steps(rc, domain))[0] == ListClustersArgs(o)
    ensures CreateDomainArgs(o, domain) in Render(o, domain, Steps(rc, domain)) <==> rc >= 1 && domain != DefaultDomain
    ensures rc >= 1 ==>
      var trace := Render(o, domain, Steps(rc, domain));
      trace[|trace| - 3..] == [StartDomainArgs(o, domain), EnableSecureAdminArgs(o, domain), RestartDomainArgs(o, domain)]
  {
    StepsOrder(rc, domain);
    RenderedCreate(o, domain, rc);
    var steps := Steps(rc, domain);
    var trace := Render(o, domain, steps);
    if rc >= 1 {
      var n := |trace|;
      assert steps[n - 3] == StartDomain && steps[n - 2] == EnableSecureAdmin && steps[n - 1] == RestartDomain;
      assert trace[n - 3..] == [trace[n - 3], trace[n - 2], trace[n - 1]];
    }
  }

  /** The `create-domain` command is in the trace exactly when the step is. */
  lemma RenderedCreate(o: AdminOptions, domain: string, rc: int)
    ensures CreateDomainArgs(o, domain) in Render(o, domain, Steps(rc, domain))
        <==> CreateDomain in Steps(rc, domain)
  {
    var steps := Steps(rc, domain);
    var cmds := Render(o, domain, steps);
    if CreateDomainArgs(o, domain) in cmds {
      var i :| 0 <= i < |cmds| && cmds[i] == CreateDomainArgs(o, domain);
      assert StepArgs(o, domain, steps[i]) == StepArgs(o, domain, CreateDomain);
      StepArgsInjective(o, domain, steps[i], CreateDomain);
    }
    if CreateDomain in steps {
      var i :| 0 <= i < |steps| && steps[i] == CreateDomain;
      assert cmds[i] == CreateDomainArgs(o, domain);
    }
  }
}
