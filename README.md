# GlassFish asadmin modules — a verified model

Two Ansible modules drive GlassFish's `asadmin` command-line tool.

- `glassfish_properties` brings the system properties of a cluster config in line with a file of `key=value` lines. It lists the properties `asadmin` reports and parses both the listing and the file into maps. For every desired key that is missing, it issues `create-system-properties`. For every desired key whose value differs, it issues `delete-system-property` and then `create-system-properties`. It reports the changed flag and the updated entries.
- `glassfish_domain` runs `list-clusters`. When that exits with a code of at least 1, it creates the domain (unless it is the default `domain1`), then starts it, enables secure administration and restarts it. It reports whether it did so.

This project models both modules in Dafny and proves what they do.

- Running a process becomes input and output. The listing's standard output, the listing's exit code and the property file's text are inputs. The commands issued come out as a trace, a `seq<seq<string>>` of argument vectors.
- The argument-list builders are methods. Like the source, each one extends a list step by step. Each is proved equal to a specification function in `Asadmin` or in its own module.
- `Asadmin.ParseBase`, `Asadmin.ParseInvocation` and `GlassfishDomain.ParseCreateDomain` read back the fixed layout the builders produce: the path, `--user` at index 1, then `--passwordfile` and `--port` in that order. For `create-domain` the layout is the path, the subcommand at index 1, `--user` at index 2, then `--passwordfile` and `--portbase`, and the domain last. They are not `asadmin`'s own option grammar. They serve as the builders' inverse. Each builder's output is proved to read back as exactly the configuration it was built from, so distinct configurations give distinct commands. The one exception is `create-system-properties`: its key and value read back only as the single joined operand `key=value`. So `a=b` with `c` and `a` with `b=c` give the same command. The pair is recovered uniquely when the key holds no `=`, which `ParseLine` guarantees for every key the module passes. The converse is proved too: whatever reads back is the built vector.
- The properties module's two parsing loops are one method, `ParsePropertyLines`. It is proved against `ParseLines`. Lemmas then characterise `ParseLines` declaratively:
  - parsing fails exactly when a line holds two or more `=`;
  - a key is in the map exactly when some line sets it;
  - each key maps to the value of the last line that sets it.
  Formatting a mapping and parsing it gives the mapping back, both as a listing and as a file, provided no key or value holds `=` or a newline (`PlainPairs`). The condition is needed: a value such as `-Dx=y` makes the source raise `ValueError`.
- The reconciliation loop `Reconcile` walks the desired keys in an unspecified order, as Python 2's dict iteration does. It is proved to return `Divergence(desired, observed)` and to issue the rendered `Plan` for its visiting order. For every visiting order, the lemmas prove:
  - each key receives exactly its own commands, and keys present only in the listing receive none;
  - commands are issued exactly when something diverges;
  - applying the plan yields `observed + desired`, so, if every command takes effect, a second run issues nothing.
- The domain decision `GlassfishDomain.Run` is proved to issue the rendered `Steps(rc, domain)`. `changed` holds exactly when `rc >= 1`. `create-domain` is issued exactly when `rc >= 1` and the domain is not `domain1`, and only right after the listing. Start, enable-secure-admin and restart close the run, in that order.

Files:
- `wrappers.dfy`: `Option`.
- `text.dfy`: Python's `str.split`, `str.replace(c, "")` and `readline`, with their round-trip lemmas.
- `asadmin.dfy`: the shared options and a reader of the builders' argument layout.
- `glassfish_properties.dfy`
- `glassfish_domain.dfy`

Both source files define the same `create_asadmin_base_cmd`. Each module of the model therefore has its own `CreateBaseCmd`, and both are proved against the shared `Asadmin.BaseArgs`.

Where the code departs from its comments or from what a reader would expect, the model follows the code:
- `split("=")` is unpacked into exactly two names. A line with two or more `=` therefore raises `ValueError` (`Outcome.ValueError`, `TooManyValues`). It is not split at its first `=`.
- `--passwordfile` and `--port` are left out only when the parameter is `None`. An empty string is still passed.
- The comment above the start builder leaves out the `start-domain` token, and the one above the enable-secure-admin builder leaves out the domain name. Both builders pass the subcommand and the domain.
- The domain name test `is not 'domain1'` is an identity test. It is modelled as string inequality.

## Model

| member | source | states |
|---|---|---|
| `Text.Split` | glassfish_properties.py:67-69 | `s.split(c)` yields one more piece than there are separators, and no piece contains the separator |
| `Text.JoinOfSplit` | glassfish_properties.py:67-69 | splitting loses nothing: joining the pieces with the separator gives back the string |
| `Text.SplitOfJoin` | glassfish_properties.py:67-69 | pieces free of the separator, once joined, split back into the same pieces |
| `Text.Remove` | glassfish_properties.py:77 | `replace(c, "")` leaves no `c`, shortens the string by the number of `c`, and keeps exactly the other characters that occur |
| `Text.RemoveIsConcatOfSplit` | glassfish_properties.py:77 | `s.replace(c, "")` equals `"".join(s.split(c))`: every other character is kept, in order and as often as it occurs |
| `Text.ReadLines` | glassfish_properties.py:73-74 | the lines `readline` yields concatenate to the file; each is non-empty, holds a newline only at its end, and every line but the last ends in one |
| `Text.ReadLinesOfConcat` | glassfish_properties.py:73-74 | lines that each end in their only newline read back unchanged from their concatenation |
| `Asadmin.BaseRoundTrip` | glassfish_properties.py:101-112 | the shared prefix reads back as exactly the configured path, user, password file and port, with the rest left intact, whenever the rest does not start with an option flag |
| `Asadmin.BaseParsed` | glassfish_properties.py:101-112 | whatever reads as options and a rest is the shared prefix of those options followed by that rest |
| `Asadmin.SubcommandRoundTrip` | glassfish_properties.py:119-124 | a command built as prefix, subcommand and operands reads back as those options, subcommand and operands |
| `Asadmin.SubcommandArgsInjective` | glassfish_domain.py:95-161 | two ordinary commands are equal only when they have the same options, subcommand and operands |
| `GlassfishProperties.CreateBaseCmd` | glassfish_properties.py:101-112 | the list built step by step is the shared prefix and reads back as exactly the options |
| `GlassfishProperties.CreateSyspropListCmd` | glassfish_properties.py:119-124 | builds prefix ++ `list-system-properties <config>` |
| `GlassfishProperties.CreateSyspropDeleteCmd` | glassfish_properties.py:132-139 | builds prefix ++ `delete-system-property --target <config> <key>` |
| `GlassfishProperties.CreateSyspropAddCmd` | glassfish_properties.py:147-154 | builds prefix ++ `create-system-properties --target <config> <key>=<value>` |
| `GlassfishProperties.CommandsReadBack` | glassfish_properties.py:119-154 | the listing reads back with the cluster config as its only operand (no `--target`); delete and create read back with `--target <config>` and then the key, or the pair as one `key=value` argument |
| `GlassfishProperties.ParseLine` | glassfish_properties.py:68-69 | a line is ignored exactly when it has no `=`, raises exactly when it has two or more, and otherwise is `key=value` with neither part holding `=` |
| `GlassfishProperties.ParseLineOfEntry` | glassfish_properties.py:75-76 | `key=value` built from parts free of `=` parses back to that key and value |
| `GlassfishProperties.ParsePropertyLines` | glassfish_properties.py:66-77 | the loop over lines computes `ParseLines`, failing as soon as a line raises |
| `GlassfishProperties.ParseFailurePersists` | glassfish_properties.py:66-77 | once a line raises, the whole parse fails whatever follows |
| `GlassfishProperties.ParseLinesFails` | glassfish_properties.py:66-77 | parsing fails exactly when some line holds more than one `=` |
| `GlassfishProperties.ParsedKey` | glassfish_properties.py:66-77 | on success a key is in the map exactly when some line sets it |
| `GlassfishProperties.ParsedValue` | glassfish_properties.py:70-77 | on success each key holds the value of the last line setting it (later duplicates overwrite), with every newline removed for the file |
| `GlassfishProperties.ListingRoundTrip` | glassfish_properties.py:66-70 | a mapping whose keys and values hold no `=` and no newline, printed as `key=value` lines joined by newlines, parses back to the mapping |
| `GlassfishProperties.FileRoundTrip` | glassfish_properties.py:72-77 | a mapping whose keys and values hold no `=` and no newline, written as newline-terminated `key=value` lines, parses back from the file to the mapping |
| `GlassfishProperties.Divergence` | glassfish_properties.py:79-88 | the update only holds desired keys, each with its desired value |
| `GlassfishProperties.Reconcile` | glassfish_properties.py:79-88 | the loop returns exactly the desired entries missing from or different in the observed map, visits every desired key once, and issues the rendered plan for that order |
| `GlassfishProperties.IssueKeyCommands` | glassfish_properties.py:81-88 | for one key it issues delete then create when the value differs, create alone when the key is absent, and nothing when the value is equal |
| `GlassfishProperties.PlanPerKey` | glassfish_properties.py:79-88 | whatever the order, the commands concerning a key are exactly its own plan if it is desired and none otherwise, so keys present only in the listing are never touched |
| `GlassfishProperties.KeyPlanFor` | glassfish_properties.py:81-88 | every command of a key's plan concerns that key |
| `GlassfishProperties.KeyPlanEmpty` | glassfish_properties.py:81-88 | a desired key receives a command exactly when it is in the divergence |
| `GlassfishProperties.PlanEmptyIff` | glassfish_properties.py:90-96 | no command is issued exactly when the divergence is empty, the condition for `changed = False` |
| `GlassfishProperties.PlanConverges` | glassfish_properties.py:79-88 | applying the issued deletes and creates to the observed map (`Apply`, each taking effect) gives the observed map overridden by the desired entries visited |
| `GlassfishProperties.SecondRunIsNoOp` | glassfish_properties.py:79-88 | after one run's commands, provided each delete and create takes effect (`Apply`), the divergence is empty, so a second run changes nothing |
| `GlassfishProperties.Run` | glassfish_properties.py:62-96 | lists first; raises (after the listing only) exactly when the listing or the file has a line with more than one `=`; otherwise issues the reconciliation commands and reports `changed` iff the update is non-empty, the update as payload only then, and `changed` iff commands followed the listing |
| `GlassfishProperties.ScenarioFile` | glassfish_properties.py:72-77 | the file `a=1\nb=3\nc=4\n` parses to `{a:1, b:3, c:4}` |
| `GlassfishProperties.ScenarioListing` | glassfish_properties.py:66-70 | the listing `a=1\nb=2` parses to `{a:1, b:2}` |
| `GlassfishProperties.ScenarioDivergence` | glassfish_properties.py:79-88 | observed `{a:1, b:2}` and desired `{a:1, b:3, c:4}` give the update `{b:3, c:4}` |
| `GlassfishProperties.ScenarioCommands` | glassfish_properties.py:79-88 | in that case `b` is deleted then created, `c` created, and `a` gets no command, in any visiting order |
| `GlassfishProperties.ScenarioNothingToDo` | glassfish_properties.py:79-96 | when observed equals desired, nothing diverges and no command is issued |
| `GlassfishDomain.CreateBaseCmd` | glassfish_domain.py:77-87 | the list built step by step is the shared prefix and reads back as exactly the options |
| `GlassfishDomain.CreateClusterListCmd` | glassfish_domain.py:95-99 | builds prefix ++ `list-clusters` |
| `GlassfishDomain.CommandsReadBack` | glassfish_domain.py:95-161 | list-clusters reads back with no operand; start-domain, restart-domain and enable-secure-admin each read back with the domain name as their one operand |
| `GlassfishDomain.CreateDomainAddCmd` | glassfish_domain.py:109-121 | the list built step by step is the create-domain command and reads back as exactly the options and domain |
| `GlassfishDomain.CreateDomainRoundTrip` | glassfish_domain.py:109-121 | every create-domain command reads back as the options and domain it was built from |
| `GlassfishDomain.CreateDomainParsed` | glassfish_domain.py:109-121 | whatever reads as a create-domain command is the one built from what was read |
| `GlassfishDomain.CreateDomainLayout` | glassfish_domain.py:109-121 | create-domain comes before `--user`, so it does not read as an ordinary command; its option flags are only `--passwordfile` and `--portbase`, never `--port`; `--portbase` is present exactly when a port is set |
| `GlassfishDomain.CreateDomainStartCmd` | glassfish_domain.py:129-134 | builds prefix ++ `start-domain <domain>` |
| `GlassfishDomain.CreateDomainRestartCmd` | glassfish_domain.py:143-148 | builds prefix ++ `restart-domain <domain>` |
| `GlassfishDomain.CreateEnableSecureAdminCmd` | glassfish_domain.py:156-161 | builds prefix ++ `enable-secure-admin <domain>` |
| `GlassfishDomain.StepArgsInjective` | glassfish_domain.py:57-68 | distinct steps issue distinct commands, so the trace determines the steps taken |
| `GlassfishDomain.StepsOrder` | glassfish_domain.py:57-68 | the listing is first and never repeated; more steps follow exactly when `rc >= 1`; creation happens exactly when also the domain is not `domain1`, and then right after the listing; start, enable-secure-admin, restart end the run in that order |
| `GlassfishDomain.Run` | glassfish_domain.py:54-70 | issues the rendered steps; `changed` iff `rc >= 1` iff any command follows the listing; create-domain is in the trace iff `rc >= 1` and the domain is not `domain1`; a changing run ends with start, enable-secure-admin, restart |
| `GlassfishDomain.TraceFacts` | glassfish_domain.py:57-68 | the rendered trace keeps the order facts of the steps: the listing first, create-domain present exactly under the condition above, start, enable-secure-admin and restart last |
| `GlassfishDomain.RenderedCreate` | glassfish_domain.py:59-61 | the create-domain command is in the trace exactly when the creation step is taken |

## Left out

- Running processes (`module.run_command`), `AnsibleModule` argument handling and its defaults, `exit_json` and the printed JSON are host framework and process I/O. They become input parameters, the `Outcome` value and the command trace.
- Opening and reading the property file is I/O. The file is an input string, cut into lines as `readline` does (`Text.ReadLines`).
- The host's abort on a non-zero exit code (`check_rc=True`) is not modelled. In the properties module the listing is taken as having succeeded. In the domain module `rc` is an input and the branch at `rc >= 1` is modelled as written. Under the host's abort-on-non-zero behaviour that branch is unreachable. A failing create, start, enable-secure-admin or restart would end the run after a prefix of the trace. The model issues all of them.
- The results of the delete and create commands are not inputs. The source does not check them (no `check_rc`), so they cannot change the outcome.
- GlassfishProperties.Apply: assumes each issued `delete-system-property` removes its key and each `create-system-properties` sets it. The source never checks this. It records the key in `updated_properties` whatever the command returned. If `asadmin` rejects a command, the module still reports `changed`, and the next run finds the same divergence again. `PlanConverges` and `SecondRunIsNoOp` hold only under this assumption.
- Python 2's dict iteration order is left open. `Reconcile` returns a ghost visiting order, and every property is proved for all orders.
- The `is not 'domain1'` identity test is modelled as string inequality. Object identity of Python strings is not modelled.
- The `DOCUMENTATION` strings and the `argument_spec` defaults are configuration metadata, not behaviour.
- A port given as a number rather than a string is not modelled. Every parameter is a string or `None`.
- `asadmin`'s own option grammar (options in another order, `--name=value` forms, abbreviations) is not modelled. The readers in `Asadmin` and `GlassfishDomain` accept only the layout the builders produce.
