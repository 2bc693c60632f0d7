/** The `glassfish_properties` module: reconciles the system properties of a
    cluster configuration with the `key=value` lines of a property file.
    It lists the properties `asadmin` reports, parses the listing and the
    file into maps, and for every desired key that is missing or different
    issues `delete-system-property` (when present) and then
    `create-system-properties`. Commands issued are recorded in a trace;
    the listing text and the file text are inputs. */
module GlassfishProperties {
  import opened Wrappers
  import opened Text
  import opened Asadmin

  const ListSubcommand := "list-system-properties"
  const DeleteSubcommand := "delete-system-property"
  const CreateSubcommand := "create-system-properties"

  // ---------------------------------------------------------------------
  // Argument lists

  /** `list-system-properties` with the cluster config as its one operand. */
  function ListArgs(o: AdminOptions, clusterConfig: string): seq<string>
  {
    SubcommandArgs(o, ListSubcommand, [clusterConfig])
  }

  /** `delete-system-property --target <config> <key>`. */
  function DeleteArgs(o: AdminOptions, clusterConfig: string, key: string): seq<string>
  {
    SubcommandArgs(o, DeleteSubcommand, ["--target", clusterConfig, key])
  }

  /** `create-system-properties --target <config> <key>=<value>`, the pair
      as one argument. */
  function CreateArgs(o: AdminOptions, clusterConfig: string, key: string, value: string): seq<string>
  {
    SubcommandArgs(o, CreateSubcommand, ["--target", clusterConfig, key + "=" + value])
  }

  /** Every command of the module reads back as its options, subcommand and
      operands: the listing takes the cluster config alone (no `--target`),
      delete and create take `--target <config>` and then the key, or the
      pair as one `key=value` argument. */
  lemma CommandsReadBack(o: AdminOptions, clusterConfig: string, key: string, value: string)
    ensures ParseInvocation(ListArgs(o, clusterConfig)) == Some(Invocation(o, ListSubcommand, [clusterConfig]))
    ensures ParseInvocation(DeleteArgs(o, clusterConfig, key))
         == Some(Invocation(o, DeleteSubcommand, ["--target", clusterConfig, key]))
    ensures ParseInvocation(CreateArgs(o, clusterConfig, key, value))
         == Some(Invocation(o, CreateSubcommand, ["--target", clusterConfig, key + "=" + value]))
  {
    SubcommandRoundTrip(o, ListSubcommand, [clusterConfig]);
    SubcommandRoundTrip(o, DeleteSubcommand, ["--target", clusterConfig, key]);
    SubcommandRoundTrip(o, CreateSubcommand, ["--target", clusterConfig, key + "=" + value]);
  }

  /** Builds the shared prefix by extending an empty list. */
  method CreateBaseCmd(o: AdminOptions) returns (args: seq<string>)
    ensures args == BaseArgs(o)
    ensures ParseBase(args) == Some((o, []))
  {
    args := [];
    args := args + [o.asadminPath];
    args := args + ["--user", o.user];
    if o.passwordFile.Some? {
      args := args + [PasswordFileFlag, o.passwordFile.value];
    }
    if o.port.Some? {
      args := args + [PortFlag, o.port.value];
    }
    BaseRoundTrip(o, []);
    assert BaseArgs(o) + [] == args;
  }

  method CreateSyspropListCmd(o: AdminOptions, clusterConfig: string) returns (args: seq<string>)
    ensures args == ListArgs(o, clusterConfig)
  {
    args := CreateBaseCmd(o);
    args := args + [ListSubcommand, clusterConfig];
  }

  method CreateSyspropDeleteCmd(o: AdminOptions, clusterConfig: string, key: string) returns (args: seq<string>)
    ensures args == DeleteArgs(o, clusterConfig, key)
  {
    args := CreateBaseCmd(o);
    args := args + [DeleteSubcommand];
    args := args + ["--target", clusterConfig];
    args := args + [key];
  }

  method CreateSyspropAddCmd(o: AdminOptions, clusterConfig: string, key: string, value: string)
    returns (args: seq<string>)
    ensures args == CreateArgs(o, clusterConfig, key, value)
  {
    args := CreateBaseCmd(o);
    args := args + [CreateSubcommand];
    args := args + ["--target", clusterConfig];
    args := args + [key + "=" + value];
  }

  // ---------------------------------------------------------------------
  // Parsing `key=value` lines

  /** What one line contributes: nothing (no `=`), a key and a raw value
      (exactly one `=`), or the `ValueError` of unpacking `split("=")` into
      two names (two or more `=`). */
  datatype LineParse = Ignored | Entry(key: string, value: string) | TooManyValues

  function ParseLine(line: string): (r: LineParse)
    ensures r.Ignored? <==> '=' !in line
    ensures r.TooManyValues? <==> Count(line, '=') >= 2
    ensures r.Entry? ==> '=' !in r.key && '=' !in r.value && line == r.key + "=" + r.value
  {
    if '=' !in line then Ignored
    else
      var parts := Split(line, '=');
      if |parts| == 2 then
        JoinOfSplit(line, '=');
        Entry(parts[0], parts[1])
      else TooManyValues
  }

  /** A line built from a key and a value free of `=` parses back to them. */
  lemma ParseLineOfEntry(key: string, value: string)
    requires '=' !in key && '=' !in value
    ensures ParseLine(key + "=" + value) == Entry(key, value)
  {
    SplitOfJoin([key, value], '=');
    assert Join([key, value], '=') == key + "=" + value;
  }

  /** The value stored for a raw value: the file parser removes every `\n`. */
  function StoredValue(raw: string, stripNewlines: bool): string
  {
    if stripNewlines then Remove(raw, '\n') else raw
  }

  /** The map the lines build, line by line, a later key overwriting an
      earlier one; `None` when some line raises. */
  function ParseLines(lines: seq<string>, stripNewlines: bool): Option<map<string, string>>
  {
    if lines == [] then Some(map[])
    else
      match ParseLines(lines[..|lines| - 1], stripNewlines)
      case None => None
      case Some(m) =>
        match ParseLine(lines[|lines| - 1])
        case Ignored => Some(m)
        case TooManyValues => None
        case Entry(k, v) => Some(m[k := StoredValue(v, stripNewlines)])
  }

  /** Line `line` sets key `k`. */
  predicate SetsKey(line: string, k: string)
  {
    ParseLine(line).Entry? && ParseLine(line).key == k
  }

  /** Parsing fails exactly when some line holds more than one `=`. */
  lemma {:induction false} ParseLinesFails(lines: seq<string>, stripNewlines: bool)
    ensures ParseLines(lines, stripNewlines).None?
        <==> exists i :: 0 <= i < |lines| && Count(lines[i], '=') >= 2
  {
    if lines != [] {
      var init := lines[..|lines| - 1];
      ParseLinesFails(init, stripNewlines);
      if ParseLines(init, stripNewlines).None? {
        var i :| 0 <= i < |init| && Count(init[i], '=') >= 2;
        assert lines[i] == init[i];
      } else {
        forall i | 0 <= i < |init| ensures Count(lines[i], '=') < 2 {
          assert lines[i] == init[i];
        }
      }
    }
  }

  /** The last line of a successful parse updates the map its prefix built. */
  lemma ParseStep(lines: seq<string>, stripNewlines: bool)
    requires lines != [] && ParseLines(lines, stripNewlines).Some?
    ensures ParseLines(lines[..|lines| - 1], stripNewlines).Some?
    ensures
      var m := ParseLines(lines[..|lines| - 1], stripNewlines).value;
      var l := ParseLine(lines[|lines| - 1]);
      ParseLines(lines, stripNewlines).value
        == if l.Entry? then m[l.key := StoredValue(l.value, stripNewlines)] else m
  {
  }

  /** On success a key is in the map exactly when some line sets it. */
  lemma {:induction false} ParsedKey(lines: seq<string>, stripNewlines: bool, k: string)
    requires ParseLines(lines, stripNewlines).Some?
    ensures k in ParseLines(lines, stripNewlines).value <==> exists i :: 0 <= i < |lines| && SetsKey(lines[i], k)
  {
    if lines != [] {
      var init := lines[..|lines| - 1];
      var last := lines[|lines| - 1];
      ParseStep(lines, stripNewlines);
      ParsedKey(init, stripNewlines, k);
      var m := ParseLines(init, stripNewlines).value;
      var m' := ParseLines(lines, stripNewlines).value;
      if SetsKey(last, k) {
        assert k in m';
        assert SetsKey(lines[|lines| - 1], k);
      } else {
        assert k in m' <==> k in m;
        SetsKeyBeforeLast(init, last, k);
        assert lines == init + [last];
      }
    }
  }

  /** When the last line does not set `k`, some line sets it exactly when some
      earlier line does. */
  lemma SetsKeyBeforeLast(init: seq<string>, last: string, k: string)
    requires !SetsKey(last, k)
    ensures (exists i :: 0 <= i < |init + [last]| && SetsKey((init + [last])[i], k))
        <==> (exists i :: 0 <= i < |init| && SetsKey(init[i], k))
  {
    var lines := init + [last];
    if exists i :: 0 <= i < |lines| && SetsKey(lines[i], k) {
      var i :| 0 <= i < |lines| && SetsKey(lines[i], k);
      assert init[i] == lines[i];
    }
    if exists i :: 0 <= i < |init| && SetsKey(init[i], k) {
      var i :| 0 <= i < |init| && SetsKey(init[i], k);
      assert lines[i] == init[i];
    }
  }

  /** On success a key maps to the value of the last line that sets it
      (newlines removed for the file): a later duplicate overwrites. */
  lemma {:induction false} ParsedValue(lines: seq<string>, stripNewlines: bool, i: nat, k: string)
    requires ParseLines(lines, stripNewlines).Some?
    requires i < |lines| && SetsKey(lines[i], k)
    requires forall j :: i < j < |lines| ==> !SetsKey(lines[j], k)
    ensures k in ParseLines(lines, stripNewlines).value
    ensures ParseLines(lines, stripNewlines).value[k] == StoredValue(ParseLine(lines[i]).value, stripNewlines)
  {
    var init := lines[..|lines| - 1];
    if i < |init| {
      assert init[i] == lines[i];
      forall j | i < j < |init| ensures !SetsKey(init[j], k) {
        assert init[j] == lines[j];
      }
      ParseStep(lines, stripNewlines);
      ParsedValue(init, stripNewlines, i, k);
      assert !SetsKey(lines[|lines| - 1], k);
    }
  }

  /** The line-by-line parse of the source's two loops: the listing's lines
      (`stripNewlines` false) and the file's lines (`stripNewlines` true).
      `None` is the `ValueError` raised by a line with more than one `=`. */
  method ParsePropertyLines(lines: seq<string>, stripNewlines: bool) returns (r: Option<map<string, string>>)
    ensures r == ParseLines(lines, stripNewlines)
  {
    var m: map<string, string> := map[];
    for i := 0 to |lines|
      invariant ParseLines(lines[..i], stripNewlines) == Some(m)
    {
      assert lines[..i + 1][..i] == lines[..i];
      var line := lines[i];
      if '=' in line {
        var parts := Split(line, '=');
        if |parts| != 2 {
          ParseFailurePersists(lines, i + 1, stripNewlines);
          return None;
        }
        m := m[parts[0] := StoredValue(parts[1], stripNewlines)];
      }
    }
    assert lines[..|lines|] == lines;
    r := Some(m);
  }

  /** Once a prefix fails to parse, the whole list does. */
  lemma {:induction false} ParseFailurePersists(lines: seq<string>, n: nat, stripNewlines: bool)
    requires n <= |lines|
    requires ParseLines(lines[..n], stripNewlines).None?
    ensures ParseLines(lines, stripNewlines).None?
  {
    if n < |lines| {
      assert lines[..|lines| - 1][..n] == lines[..n];
      ParseFailurePersists(lines[..|lines| - 1], n, stripNewlines);
    } else {
      assert lines[..n] == lines;
    }
  }

  // ---------------------------------------------------------------------
  // Formatting a mapping and reading it back

  /** The map a list of pairs denotes, a later pair overwriting an earlier. */
  function ToMap(pairs: seq<(string, string)>): map<string, string>
  {
    if pairs == [] then map[]
    else ToMap(pairs[..|pairs| - 1])[pairs[|pairs| - 1].0 := pairs[|pairs| - 1].1]
  }

  /** `key=value` lines for the pairs, each followed by `terminator`. */
  function FormatLines(pairs: seq<(string, string)>, terminator: string): (lines: seq<string>)
    ensures |lines| == |pairs|
  {
    seq(|pairs|, i requires 0 <= i < |pairs| => pairs[i].0 + "=" + pairs[i].1 + terminator)
  }

  /** Keys and values free of `=` and newlines. */
  predicate PlainPairs(pairs: seq<(string, string)>)
  {
    forall i :: 0 <= i < |pairs| ==>
      '=' !in pairs[i].0 && '=' !in pairs[i].1 && '\n' !in pairs[i].0 && '\n' !in pairs[i].1
  }

  lemma {:induction false} ParseFormatted(pairs: seq<(string, string)>, stripNewlines: bool)
    requires PlainPairs(pairs)
    ensures ParseLines(FormatLines(pairs, if stripNewlines then "\n" else ""), stripNewlines) == Some(ToMap(pairs))
  {
    if pairs != [] {
      var t := if stripNewlines then "\n" else "";
      var init := pairs[..|pairs| - 1];
      var (k, v) := pairs[|pairs| - 1];
      var lines := FormatLines(pairs, t);
      assert lines[..|lines| - 1] == FormatLines(init, t);
      ParseFormatted(init, stripNewlines);
      assert lines[|lines| - 1] == k + "=" + (v + t);
      ParseLineOfEntry(k, v + t);
      if stripNewlines {
        RemoveAbsent(v, '\n');
        RemoveAfter(v, '\n');
        assert v + t == v + ['\n'];
      }
      assert StoredValue(v + t, stripNewlines) == v;
    }
  }

  /** Removing a character from a string that ends in it. */
  lemma {:induction false} RemoveAfter(s: string, c: char)
    ensures Remove(s + [c], c) == Remove(s, c)
  {
    if s != [] {
      assert (s + [c])[1..] == s[1..] + [c];
      RemoveAfter(s[1..], c);
    } else {
      assert [c][1..] == [];
    }
  }

  /** The listing text of a mapping, one `key=value` per line. */
  function ListingText(pairs: seq<(string, string)>): string
  {
    if pairs == [] then "" else Join(FormatLines(pairs, ""), '\n')
  }

  /** The property-file text of a mapping, each line ending in a newline. */
  function FileText(pairs: seq<(string, string)>): string
  {
    Concat(FormatLines(pairs, "\n"))
  }

  /** Formatting a mapping as a listing and parsing it reproduces it. */
  lemma ListingRoundTrip(pairs: seq<(string, string)>)
    requires PlainPairs(pairs)
    ensures ParseLines(Split(ListingText(pairs), '\n'), false) == Some(ToMap(pairs))
  {
    ParseFormatted(pairs, false);
    var lines := FormatLines(pairs, "");
    if pairs == [] {
      assert Split("", '\n') == [""];
      assert ParseLine("") == Ignored;
      assert [""][..0] == [];
    } else {
      forall i | 0 <= i < |lines| ensures '\n' !in lines[i] {
        assert lines[i] == pairs[i].0 + "=" + pairs[i].1 + "";
      }
      SplitOfJoin(lines, '\n');
    }
  }

  /** Writing a mapping to a property file and parsing the file reproduces it. */
  lemma FileRoundTrip(pairs: seq<(string, string)>)
    requires PlainPairs(pairs)
    ensures ParseLines(ReadLines(FileText(pairs)), true) == Some(ToMap(pairs))
  {
    ParseFormatted(pairs, true);
    var lines := FormatLines(pairs, "\n");
    forall i | 0 <= i < |lines| ensures IsLine(lines[i]) && lines[i][|lines[i]| - 1] == '\n' {
      var body := pairs[i].0 + "=" + pairs[i].1;
      assert lines[i] == body + "\n";
      assert lines[i][..|lines[i]| - 1] == body;
    }
    ReadLinesOfConcat(lines);
  }

  // ---------------------------------------------------------------------
  // Reconciliation

  /** The desired entries whose key is missing from the observed map or
      observed with another value. */
  function Divergence(desired: map<string, string>, observed: map<string, string>): (r: map<string, string>)
    ensures r.Keys <= desired.Keys
    ensures forall k :: k in r ==> r[k] == desired[k]
  {
    map k | k in desired && (k !in observed || observed[k] != desired[k]) :: desired[k]
  }

  /** A mutating command, before it is rendered as arguments. */
  datatype Action = Delete(key: string) | Create(key: string, value: string)

  /** The commands issued for one desired key: delete then create when the
      observed value differs, create when the key is absent, else none. */
  function KeyPlan(k: string, desired: map<string, string>, observed: map<string, string>): seq<Action>
    requires k in desired
  {
    if k in observed then
      if desired[k] != observed[k] then [Delete(k), Create(k, desired[k])] else []
    else [Create(k, desired[k])]
  }

  /** The commands issued when the desired keys are visited in `order`. */
  function Plan(order: seq<string>, desired: map<string, string>, observed: map<string, string>): seq<Action>
    requires forall i :: 0 <= i < |order| ==> order[i] in desired
  {
    if order == [] then []
    else Plan(order[..|order| - 1], desired, observed) + KeyPlan(order[|order| - 1], desired, observed)
  }

  /** `order` visits every key of `keys` exactly once (the dictionary's
      iteration order, which the model leaves open). */
  ghost predicate IsOrdering(order: seq<string>, keys: set<string>)
  {
    && (forall i :: 0 <= i < |order| ==> order[i] in keys)
    && (forall k :: k in keys ==> k in order)
    && (forall i, j :: 0 <= i < j < |order| ==> order[i] != order[j])
  }

  function ActionArgs(o: AdminOptions, clusterConfig: string, a: Action): seq<string>
  {
    match a
    case Delete(k) => DeleteArgs(o, clusterConfig, k)
    case Create(k, v) => CreateArgs(o, clusterConfig, k, v)
  }

  /** The argument lists of a sequence of actions. */
  function Commands(o: AdminOptions, clusterConfig: string, actions: seq<Action>): (cmds: seq<seq<string>>)
    ensures |cmds| == |actions|
  {
    seq(|actions|, i requires 0 <= i < |actions| => ActionArgs(o, clusterConfig, actions[i]))
  }

  /** The actions of a sequence that concern key `k`, in order. */
  function ActionsFor(actions: seq<Action>, k: string): seq<Action>
  {
    if actions == [] then []
    else
      var last := actions[|actions| - 1];
      ActionsFor(actions[..|actions| - 1], k) + (if last.key == k then [last] else [])
  }

  lemma {:induction false} ActionsForAppend(a: seq<Action>, b: seq<Action>, k: string)
    ensures ActionsFor(a + b, k) == ActionsFor(a, k) + ActionsFor(b, k)
  {
    if b != [] {
      assert (a + b)[..|a + b| - 1] == a + b[..|b| - 1];
      ActionsForAppend(a, b[..|b| - 1], k);
    } else {
      assert a + b == a;
    }
  }

  /** The exact command trace of one key, whatever the visiting order: the
      key's own plan for a desired key, nothing for any other key (in
      particular for keys only observed). */
  lemma {:induction false} PlanPerKey(order: seq<string>, desired: map<string, string>, observed: map<string, string>, k: string)
    requires forall i :: 0 <= i < |order| ==> order[i] in desired
    requires forall i, j :: 0 <= i < j < |order| ==> order[i] != order[j]
    ensures ActionsFor(Plan(order, desired, observed), k)
         == if k in order then KeyPlan(k, desired, observed) else []
  {
    if order != [] {
      var init := order[..|order| - 1];
      var last := order[|order| - 1];
      PlanPerKey(init, desired, observed, k);
      ActionsForAppend(Plan(init, desired, observed), KeyPlan(last, desired, observed), k);
      KeyPlanFor(last, desired, observed, k);
      assert k in order <==> k in init || k == last;
      if k == last {
        assert k !in init;
      }
    }
  }

  /** The actions of one key's plan all concern that key. */
  lemma KeyPlanFor(last: string, desired: map<string, string>, observed: map<string, string>, k: string)
    requires last in desired
    ensures ActionsFor(KeyPlan(last, desired, observed), k) == if last == k then KeyPlan(last, desired, observed) else []
  {
    var kp := KeyPlan(last, desired, observed);
    if |kp| == 2 {
      assert kp[0].key == last && kp[1].key == last;
      assert kp[..1][..0] == [];
      assert ActionsFor(kp[..1], k) == if last == k then [kp[0]] else [];
      assert kp == [kp[0]] + [kp[1]];
    } else if |kp| == 1 {
      assert kp[..0] == [];
    }
  }

  /** A desired key receives a command exactly when it diverges. */
  lemma KeyPlanEmpty(k: string, desired: map<string, string>, observed: map<string, string>)
    requires k in desired
    ensures KeyPlan(k, desired, observed) == [] <==> k !in Divergence(desired, observed)
  {
  }

  /** No command at all exactly when nothing diverges: the changed flag is
      true exactly when commands were issued. */
  lemma {:induction false} PlanEmptyIff(order: seq<string>, desired: map<string, string>, observed: map<string, string>)
    requires IsOrdering(order, desired.Keys)
    ensures Plan(order, desired, observed) == [] <==> Divergence(desired, observed) == map[]
  {
    var plan := Plan(order, desired, observed);
    var d := Divergence(desired, observed);
    if d != map[] {
      var k :| k in d;
      PlanPerKey(order, desired, observed, k);
      assert ActionsFor(plan, k) != [];
    } else {
      PlanNoDivergence(order, desired, observed);
    }
  }

  lemma {:induction false} PlanNoDivergence(order: seq<string>, desired: map<string, string>, observed: map<string, string>)
    requires forall i :: 0 <= i < |order| ==> order[i] in desired
    requires Divergence(desired, observed) == map[]
    ensures Plan(order, desired, observed) == []
  {
    if order != [] {
      var last := order[|order| - 1];
      assert last !in Divergence(desired, observed);
      PlanNoDivergence(order[..|order| - 1], desired, observed);
    }
  }

  /** The observed map after the actions have been applied in order, assuming
      each delete removes its key and each create sets it; the module never
      checks the exit codes of those commands. */
  function Apply(observed: map<string, string>, actions: seq<Action>): map<string, string>
  {
    if actions == [] then observed
    else
      var m := Apply(observed, actions[..|actions| - 1]);
      match actions[|actions| - 1]
      case Delete(k) => m - {k}
      case Create(k, v) => m[k := v]
  }

  lemma {:induction false} ApplyAppend(observed: map<string, string>, a: seq<Action>, b: seq<Action>)
    ensures Apply(observed, a + b) == Apply(Apply(observed, a), b)
  {
    if b != [] {
      assert (a + b)[..|a + b| - 1] == a + b[..|b| - 1];
      ApplyAppend(observed, a, b[..|b| - 1]);
    } else {
      assert a + b == a;
    }
  }

  /** The desired entries of the keys visited so far. */
  function Visited(desired: map<string, string>, order: seq<string>): map<string, string>
  {
    map k | k in desired && k in order :: desired[k]
  }

  /** Applying the plan to the observed properties yields the observed ones
      overridden by the desired ones. */
  lemma {:induction false} PlanConverges(order: seq<string>, desired: map<string, string>, observed: map<string, string>)
    requires forall i :: 0 <= i < |order| ==> order[i] in desired
    ensures Apply(observed, Plan(order, desired, observed)) == observed + Visited(desired, order)
  {
    if order != [] {
      var init := order[..|order| - 1];
      var k := order[|order| - 1];
      PlanConverges(init, desired, observed);
      var before := observed + Visited(desired, init);
      ApplyAppend(observed, Plan(init, desired, observed), KeyPlan(k, desired, observed));
      ApplyKeyPlan(before, k, desired, observed);
      VisitedStep(desired, observed, init, k);
      assert order == init + [k];
    }
  }

  /** One key's plan sets that key to its desired value. */
  lemma ApplyKeyPlan(before: map<string, string>, k: string, desired: map<string, string>, observed: map<string, string>)
    requires k in desired
    requires k in observed && observed[k] == desired[k] ==> k in before && before[k] == desired[k]
    ensures Apply(before, KeyPlan(k, desired, observed)) == before[k := desired[k]]
  {
    var kp := KeyPlan(k, desired, observed);
    if |kp| == 2 {
      assert kp[..1] == [Delete(k)] && kp[..1][..0] == [];
      assert Apply(before, kp[..1]) == before - {k};
      assert Apply(before, kp) == (before - {k})[k := desired[k]];
    } else if |kp| == 1 {
      assert kp[..0] == [];
    } else {
      assert before == before[k := desired[k]];
    }
  }

  lemma VisitedStep(desired: map<string, string>, observed: map<string, string>, init: seq<string>, k: string)
    requires k in desired
    ensures (observed + Visited(desired, init))[k := desired[k]] == observed + Visited(desired, init + [k])
  {
    assert forall x :: x in init + [k] <==> x in init || x == k;
  }

  /** After the commands of one run, a second run finds nothing to do. */
  lemma SecondRunIsNoOp(order: seq<string>, desired: map<string, string>, observed: map<string, string>)
    requires IsOrdering(order, desired.Keys)
    ensures Divergence(desired, Apply(observed, Plan(order, desired, observed))) == map[]
  {
    PlanConverges(order, desired, observed);
    assert Visited(desired, order) == desired;
  }

  /** The loop of the source over the desired keys: issues each key's
      commands as it goes and collects the updated entries. */
  method Reconcile(o: AdminOptions, clusterConfig: string,
                   desired: map<string, string>, observed: map<string, string>)
    returns (updated: map<string, string>, trace: seq<seq<string>>, ghost order: seq<string>)
    ensures updated == Divergence(desired, observed)
    ensures IsOrdering(order, desired.Keys)
    ensures trace == Commands(o, clusterConfig, Plan(order, desired, observed))
  {
    updated, trace, order := map[], [], [];
    var pending := desired.Keys;
    while pending != {}
      invariant pending <= desired.Keys
      invariant forall i :: 0 <= i < |order| ==> order[i] in desired && order[i] !in pending
      invariant forall k :: k in desired && k !in pending ==> k in order
      invariant forall i, j :: 0 <= i < j < |order| ==> order[i] != order[j]
      invariant updated == Divergence(Visited(desired, order), observed)
      invariant trace == Commands(o, clusterConfig, Plan(order, desired, observed))
      decreases pending
    {
      var k :| k in pending;
      var cmds := IssueKeyCommands(o, clusterConfig, k, desired, observed);
      if k in observed {
        if desired[k] != observed[k] {
          updated := updated[k := desired[k]];
        }
      } else {
        updated := updated[k := desired[k]];
      }
      DivergenceStep(desired, observed, order, k);
      PlanStep(order, k, desired, observed);
      CommandsAppend(o, clusterConfig, Plan(order, desired, observed), KeyPlan(k, desired, observed));
      trace := trace + cmds;
      pending := pending - {k};
      order := order + [k];
    }
    assert Visited(desired, order) == desired;
  }

  /** The body of the loop for one key: the delete and create commands
      issued for it. */
  method IssueKeyCommands(o: AdminOptions, clusterConfig: string, k: string,
                          desired: map<string, string>, observed: map<string, string>)
    returns (cmds: seq<seq<string>>)
    requires k in desired
    ensures cmds == Commands(o, clusterConfig, KeyPlan(k, desired, observed))
  {
    cmds := [];
    if k in observed {
      if desired[k] != observed[k] {
        var deleteCmd := CreateSyspropDeleteCmd(o, clusterConfig, k);
        var createCmd := CreateSyspropAddCmd(o, clusterConfig, k, desired[k]);
        cmds := [deleteCmd, createCmd];
      }
    } else {
      var createCmd := CreateSyspropAddCmd(o, clusterConfig, k, desired[k]);
      cmds := [createCmd];
    }
  }

  lemma PlanStep(order: seq<string>, k: string, desired: map<string, string>, observed: map<string, string>)
    requires forall i :: 0 <= i < |order| ==> order[i] in desired
    requires k in desired
    ensures Plan(order + [k], desired, observed) == Plan(order, desired, observed) + KeyPlan(k, desired, observed)
  {
    assert (order + [k])[..|order|] == order;
  }

  lemma DivergenceStep(desired: map<string, string>, observed: map<string, string>, order: seq<string>, k: string)
    requires k in desired
    ensures Divergence(Visited(desired, order + [k]), observed)
         == if k !in observed || observed[k] != desired[k]
            then Divergence(Visited(desired, order), observed)[k := desired[k]]
            else Divergence(Visited(desired, order), observed)
  {
    assert forall x :: x in order + [k] <==> x in order || x == k;
  }

  lemma CommandsAppend(o: AdminOptions, clusterConfig: string, a: seq<Action>, b: seq<Action>)
    ensures Commands(o, clusterConfig, a + b) == Commands(o, clusterConfig, a) + Commands(o, clusterConfig, b)
  {
  }

  // ---------------------------------------------------------------------
  // The module as a whole

  /** How a run ends: the `ValueError` of a line with more than one `=`, or
      the reported result, the changed flag with the updated properties
      when there are any. */
  datatype Outcome = ValueError | Exit(changed: bool, properties: Option<map<string, string>>)

  /** The observed properties: the listing split on newlines. */
  function ObservedProperties(listing: string): Option<map<string, string>>
  {
    ParseLines(Split(listing, '\n'), false)
  }

  /** The desired properties: the file read line by line, newlines removed
      from the values. */
  function DesiredProperties(propertyFile: string): Option<map<string, string>>
  {
    ParseLines(ReadLines(propertyFile), true)
  }

  /** One run of the module, given the standard output of the listing
      command and the text of the property file. */
  method Run(o: AdminOptions, clusterConfig: string, listing: string, propertyFile: string)
    returns (outcome: Outcome, trace: seq<seq<string>>, ghost order: seq<string>)
    ensures trace != [] && trace[0] == ListArgs(o, clusterConfig)
    ensures outcome.ValueError?
        <==> ObservedProperties(listing).None? || DesiredProperties(propertyFile).None?
    ensures outcome.ValueError? ==> trace == [ListArgs(o, clusterConfig)]
    ensures outcome.Exit? ==>
      var observed := ObservedProperties(listing).value;
      var desired := DesiredProperties(propertyFile).value;
      var updated := Divergence(desired, observed);
      && IsOrdering(order, desired.Keys)
      && trace == [ListArgs(o, clusterConfig)] + Commands(o, clusterConfig, Plan(order, desired, observed))
      && outcome.changed == (|updated| >= 1)
      && outcome.properties == (if |updated| >= 1 then Some(updated) else None)
      && (outcome.changed <==> |trace| > 1)
  {
    var listCmd := CreateSyspropListCmd(o, clusterConfig);
    trace := [listCmd];
    order := [];
    var current := ParsePropertyLines(Split(listing, '\n'), false);
    if current.None? {
      return ValueError, trace, order;
    }
    var wanted := ParsePropertyLines(ReadLines(propertyFile), true);
    if wanted.None? {
      return ValueError, trace, order;
    }
    var updated, cmds;
    updated, cmds, order := Reconcile(o, clusterConfig, wanted.value, current.value);
    trace := trace + cmds;
    PlanEmptyIff(order, wanted.value, current.value);
    assert |updated| >= 1 <==> updated != map[];
    if |updated| >= 1 {
      outcome := Exit(true, Some(updated));
    } else {
      outcome := Exit(false, None);
    }
  }

  /** A file `a=1`, `b=3`, `c=4` parses to those three entries. */
  lemma ScenarioFile()
    ensures DesiredProperties("a=1\nb=3\nc=4\n") == Some(map["a" := "1", "b" := "3", "c" := "4"])
  {
    var pairs := [("a", "1"), ("b", "3"), ("c", "4")];
    assert PlainPairs(pairs);
    FileRoundTrip(pairs);
    ScenarioFileText();
    ScenarioFileMap();
  }

  lemma ScenarioFileText()
    ensures FileText([("a", "1"), ("b", "3"), ("c", "4")]) == "a=1\nb=3\nc=4\n"
  {
    var lines := FormatLines([("a", "1"), ("b", "3"), ("c", "4")], "\n");
    assert lines[0] == "a" + "=" + "1" + "\n" == "a=1\n";
    assert lines[1] == "b" + "=" + "3" + "\n" == "b=3\n";
    assert lines[2] == "c" + "=" + "4" + "\n" == "c=4\n";
    assert lines[1..][1..][1..] == [];
    assert Concat(lines[1..][1..]) == "c=4\n";
    assert Concat(lines[1..]) == "b=3\n" + "c=4\n";
    assert Concat(lines) == "a=1\n" + "b=3\n" + "c=4\n" == "a=1\nb=3\nc=4\n";
  }

  lemma ScenarioFileMap()
    ensures ToMap([("a", "1"), ("b", "3"), ("c", "4")]) == map["a" := "1", "b" := "3", "c" := "4"]
  {
    var pairs := [("a", "1"), ("b", "3"), ("c", "4")];
    assert pairs[..2] == [("a", "1"), ("b", "3")];
    assert pairs[..2][..1] == [("a", "1")];
    assert pairs[..2][..1][..0] == [];
    assert ToMap(pairs[..2][..1]) == map["a" := "1"];
    assert ToMap(pairs[..2]) == map["a" := "1", "b" := "3"];
  }

  /** A listing `a=1`, `b=2` parses to those two entries. */
  lemma ScenarioListing()
    ensures ObservedProperties("a=1\nb=2") == Some(map["a" := "1", "b" := "2"])
  {
    var pairs := [("a", "1"), ("b", "2")];
    assert PlainPairs(pairs);
    ListingRoundTrip(pairs);
    var lines := FormatLines(pairs, "");
    assert lines[0] == "a" + "=" + "1" + "" == "a=1";
    assert lines[1] == "b" + "=" + "2" + "" == "b=2";
    assert lines[1..] == ["b=2"];
    assert Join(lines, '\n') == "a=1" + ['\n'] + "b=2" == "a=1\nb=2";
  }

  /** Observed `a=1`, `b=2` and desired `a=1`, `b=3`, `c=4`: `b` and `c` are
      the updated entries. */
  lemma ScenarioDivergence()
    ensures Divergence(map["a" := "1", "b" := "3", "c" := "4"], map["a" := "1", "b" := "2"])
         == map["b" := "3", "c" := "4"]
  {
    var d := Divergence(map["a" := "1", "b" := "3", "c" := "4"], map["a" := "1", "b" := "2"]);
    assert "a" != "b" && "a" != "c" && "b" != "c" && "3" != "2";
    assert d.Keys == {"b", "c"};
  }

  /** In the same situation, whatever the visiting order, `b` is deleted and
      re-created, `c` created and `a` left alone. */
  lemma ScenarioCommands(order: seq<string>, desired: map<string, string>, observed: map<string, string>)
    requires desired == map["a" := "1", "b" := "3", "c" := "4"]
    requires observed == map["a" := "1", "b" := "2"]
    requires IsOrdering(order, desired.Keys)
    ensures ActionsFor(Plan(order, desired, observed), "b") == [Delete("b"), Create("b", "3")]
    ensures ActionsFor(Plan(order, desired, observed), "c") == [Create("c", "4")]
    ensures ActionsFor(Plan(order, desired, observed), "a") == []
  {
    assert "a" != "b" && "a" != "c" && "b" != "c" && "3" != "2";
    assert "a" in order && "b" in order && "c" in order;
    PlanPerKey(order, desired, observed, "a");
    PlanPerKey(order, desired, observed, "b");
    PlanPerKey(order, desired, observed, "c");
  }

  /** Observed equal to desired: no command, nothing changed. */
  lemma ScenarioNothingToDo(order: seq<string>, properties: map<string, string>)
    requires IsOrdering(order, properties.Keys)
    ensures Divergence(properties, properties) == map[]
    ensures Plan(order, properties, properties) == []
  {
    PlanEmptyIff(order, properties, properties);
  }
}
