# pytest-elasticsearch: version detection, command lines and port specifications

This project models, in Dafny, the logic of pytest-elasticsearch that lies
between an Elasticsearch executable and the process it starts. It covers
two package layouts that disagree with each other, and each is modelled
separately.

- **Executors.** Each layout has an `ElasticSearchExecutor`. Its `version`
  property reads the executable's `-Vv` banner and memoises the result.
  Its `_exec_command` checks the version against a floor and writes the
  `-E key=value` command line. The current layout
  (`pytest_elasticsearch/executor.py`) needs 7.0.0. It accepts a one-digit
  major with any minor, and calls the inter-node port `transport.port`
  from 8.0.0 on. The older layout (`src/pytest_elasticsearch/executor.py`)
  needs 5.0.0. It accepts only one-digit majors and minors, and always
  uses `transport.tcp.port`.
- **`NoopElasticsearch`**: a stand-in for a server started elsewhere.
- **The older fixture factory** (`src/pytest_elasticsearch/factories.py`):
  - `_generate_es_cmdline`, whose option set and syntax depend on the
    major version;
  - the version-dependent defaults;
  - the extraction of the version text from the banner;
  - the names and paths the fixture derives from its port.
- **Port specifications** (`src/pytest_elasticsearch/port.py`):
  - `parse_ports`, a loop over comma-separated items that builds a set of
    ports;
  - `get_port`, which uses an integer as it is.

Modules and files:

- `common.dfy`:
  - `Wrappers`: `Option` and `Result`.
  - `Text`: searching, `split`/`join`, and Python's `str` ordering.
  - `Decimal`: ASCII numerals, the fragment of `int()` and `str()` that
    is used.
  - `Versions`: `major.minor.patch` with its lexicographic order.
- `banner.dfy` (`Banner`): the `re.search` over the banner, parameterised
  by which of the two patterns is used.
- `launch.dfy` (`Launch`):
  - the outcome of running the executable (`Probe`);
  - the executors' errors and their messages;
  - the launch parameters;
  - the `-E key=value` encoding, together with how Elasticsearch reads it
    back;
  - `NoopElasticsearch`.
- `executor.dfy` (`Executor`) and `legacy_executor.dfy` (`LegacyExecutor`):
  the two executor classes, with the lazily filled version field and
  construction modelled imperatively.
- `factories.dfy` (`Factories`): pure functions and lemmas.
- `port.dfy` (`Port`): `parse_ports` is a method with a loop. It is proved
  equal to a left fold over the items. The meaning of that fold is then
  proved separately.

Running the executable is a parameter. `Probe` is either the decoded
output, an `OSError`, or a non-zero exit status. A ghost counter records
how often the executable was run, so that the memo's effect can be stated.

Where the documentation and the code disagree, the model follows the code:

- The fixture's docstring says the in-memory index store is the default
  below 5.0 (`src/pytest_elasticsearch/factories.py:147`). The code uses
  it only below 2.0 (`src/pytest_elasticsearch/factories.py:104-108`), and
  `Factories.DefaultIndexStore` states the code's boundary.
- The current executor's docstring promises no particular transport
  setting. The code switches from `transport.tcp.port` to
  `transport.port` at exactly 8.0.0. `Executor.TransportDialect` states
  that switch, with an unknown future major on the `transport.port` side.

## Model

| member | source | states |
|---|---|---|
| Banner.FirstMatchSpec | pytest_elasticsearch/executor.py:91 | The scan reports the leftmost position where the pattern matches and that position's version. When it reports nothing, the pattern matches at no position. |
| Banner.ParseBanner | pytest_elasticsearch/executor.py:91-101 | The `re.search` scan and the version built from its groups, for either pattern (also src/pytest_elasticsearch/executor.py:85-99); None when nothing matches. Its meaning is stated by Banner.ParseBannerSpec and Banner.ParseRendered. |
| Banner.ParseBannerSpec | pytest_elasticsearch/executor.py:91 | A version is found iff the pattern matches somewhere, and it is the version of the leftmost match. Its major has one digit. With the older pattern its minor has one digit too (the older copy's regex at src/pytest_elasticsearch/executor.py:85-88). |
| Banner.NoMatchNoVersion | pytest_elasticsearch/executor.py:92 | A banner on which the pattern matches at no position yields no version. |
| Banner.ParseRendered | pytest_elasticsearch/executor.py:91-101 | Round trip: text without the tag, then `Version: M.m.p`, then anything not starting with a digit, yields exactly that version whenever the version fits the pattern. |
| Banner.NoTagAroundVM | pytest_elasticsearch/executor.py:91 | A JVM warning line whose only capital V starts "VM" holds no `Version: ` tag, so it cannot capture the match. |
| Versions.LessIsStrictTotalOrder | pytest_elasticsearch/executor.py:114-116 | The version order used by the gates is irreflexive, transitive, total and asymmetric. |
| Decimal.IntToStringParses | pytest_elasticsearch/executor.py:122-123 | `int()` reads back the port text that `str()` wrote. |
| Text.SplitJoin | src/pytest_elasticsearch/factories.py:100 | Splitting at the separator undoes `join` when no item contains the separator. |
| Text.JoinSplit | src/pytest_elasticsearch/port.py:73 | Joining the comma-split items with commas gives the specification back. |
| Launch.Message | pytest_elasticsearch/executor.py:92-115 | The `RuntimeError` text: the fixed refusal "This elasticsearch version is not supported." belongs to the version gate and to no other error, the "not recognized" text opens with its lead, and the `OSError` text opens with a quote. The older copy (src/pytest_elasticsearch/executor.py:90-112) uses the same texts. |
| Launch.MessageIdentifiesError | pytest_elasticsearch/executor.py:92-105 | Two `RuntimeError`s with the same message are the same error: kind, quoted output and executable are all recoverable from the text. |
| Launch.NotRecognizedMessage | pytest_elasticsearch/executor.py:92-97 | The "not recognized" message ends with the full unrecognised output. |
| Launch.NotElasticsearchMessage | pytest_elasticsearch/executor.py:102-105 | The `OSError` message opens with the executable's path in single quotes. |
| Launch.ResolveVersionSpec | pytest_elasticsearch/executor.py:88-105 | A version comes out iff the executable ran and its banner matched. No match gives NotRecognized with the output, `OSError` gives NotElasticsearch with the executable, and a failed run keeps its exit status. |
| Launch.ResolveVersion | pytest_elasticsearch/executor.py:89-105 | The uncached body of the `version` property: the run, the scan, and the error each failure becomes. Its outcomes are stated by Launch.ResolveVersionSpec. |
| Launch.ReadinessUrlSpec | pytest_elasticsearch/executor.py:78 | The readiness URL starts with `http://<host>:`, and the port reads back from the rest. |
| Launch.SplitRendered | pytest_elasticsearch/executor.py:122-129 | One `key=value` splits at its first '=' back into its setting when the key has no '='. |
| Launch.DecodeRender | pytest_elasticsearch/executor.py:120-130 | Elasticsearch reads back exactly the rendered `-E` settings, values containing '=' included. |
| Launch.Lookup | pytest_elasticsearch/executor.py:122-129 | A name is found iff some setting carries it, and the value found belongs to such a setting. |
| Launch.LookupDistinct | pytest_elasticsearch/executor.py:122-129 | With distinct names, every setting is found under its own name with its own value. |
| Launch.NoopElasticsearch.constructor | pytest_elasticsearch/executor.py:15-22 | The stand-in keeps host and port as given; the older copy (src/pytest_elasticsearch/executor.py:10-25) is identical. |
| Launch.NoopElasticsearch.Running | pytest_elasticsearch/executor.py:24-27 | `running()` is always true, in both copies. |
| Executor.BuildCommandSpec | pytest_elasticsearch/executor.py:108-130 | The gate rejects exactly the versions below 7.0.0, with "not supported". Otherwise the command is `<executable> -p <pidfile>` and eight `-E` pairs, which Elasticsearch reads back as exactly the command's settings. |
| Executor.BuildCommand | pytest_elasticsearch/executor.py:108-130 | `_exec_command` once the version is known: the 7.0.0 gate, the transport dialect, and the command as tokens. Stated by Executor.BuildCommandSpec, Executor.TransportDialect and Executor.SettingsByName. |
| Executor.StartupCommand | pytest_elasticsearch/executor.py:76-77 | What construction yields: the version read, then `_exec_command`. Stated by Executor.StartupOutcome. |
| Executor.CommandKeyOrder | pytest_elasticsearch/executor.py:121-129 | The settings come in the fixed order: http.port, transport port, path.logs, path.data, cluster.name, network.host, index.store.type, xpack.security.enabled. |
| Executor.CommandKeysDistinct | pytest_elasticsearch/executor.py:122-129 | No setting name occurs twice in the command. |
| Executor.CommandKeysPlain | pytest_elasticsearch/executor.py:122-129 | No setting name contains '=', so each pair splits where it was joined. |
| Executor.SettingsByName | pytest_elasticsearch/executor.py:122-129 | Each name carries its configured value: the data path is the works path, the network host is quoted, and security is `false`. |
| Executor.OneTransportSetting | pytest_elasticsearch/executor.py:123 | Only the second setting names an inter-node port. |
| Executor.TransportDialect | pytest_elasticsearch/executor.py:113-119 | Below 8.0.0 the inter-node port is set as `transport.tcp.port` and `transport.port` is absent. From 8.0.0 on (8.0.0 itself included) it is the other way round. |
| Executor.StartupOutcome | pytest_elasticsearch/executor.py:76-80 | Construction succeeds iff the banner is recognised and at least 7.0.0. Otherwise the error is the first failing check's: OSError, exit status, no match, or not supported. |
| Executor.ElasticSearchExecutor.Init | pytest_elasticsearch/executor.py:64-75 | The fields hold the launch parameters, no version is cached, and nothing has been run. |
| Executor.ElasticSearchExecutor.ReadVersion | pytest_elasticsearch/executor.py:82-106 | A cached version is returned without running the executable. Otherwise the executable runs once, the outcome is the resolved version or error, and only a success is cached. |
| Executor.ElasticSearchExecutor.ExecCommand | pytest_elasticsearch/executor.py:108-130 | The command is built from the cached version, or from the version read now. The executable runs only when nothing was cached. Afterwards the cache holds exactly the version read from the banner, or stays empty when that read failed. |
| Executor.ElasticSearchExecutor.InitSuper | pytest_elasticsearch/executor.py:76-80 | The superclass receives the startup command, `http://<host>:<port>` and the timeout. On error, the error is the startup outcome's. Either way the version probe has run exactly once more, and the cache then holds the version parsed from the banner, if there is one; it is filled even when the version is then refused as not supported. |
| Executor.ElasticSearchExecutor.Create | pytest_elasticsearch/executor.py:34-80 | A fresh executor exists iff the startup command succeeds. It carries that command, its parameters, the readiness URL and the timeout. It has run the executable once, and its cache holds exactly the version parsed from the banner. Every failure is the startup outcome's error. |
| Executor.VersionAfterConstruction | tests/test_elastic.py:114-133 | Constructing an executor and then reading its `version` succeeds iff construction does. The version read is the one parsed from the construction-time banner, whatever a second run of the executable would print, so the repository test `executor.version == Version(expected)` follows. |
| Executor.TwoDigitMajorNotRecognized | pytest_elasticsearch/executor.py:91 | `Version: 10.0.0` is not recognised, because the major group takes a single digit. |
| Executor.BannerVersionLine | tests/test_elastic.py:90-133 | The 8.0.0 and 7.12.1 banner lines parse to exactly those versions. |
| Executor.BannerAfterWarning | tests/test_elastic.py:97-133 | A 7.10.0 banner after a JVM warning line parses to 7.10.0. |
| LegacyExecutor.BuildCommandSpec | src/pytest_elasticsearch/executor.py:106-134 | The gate rejects exactly the versions below 5.0.0. Otherwise the command is `<executable> -p <pidfile>` and seven `-E` pairs, which read back as exactly the command's settings. |
| LegacyExecutor.BuildCommand | src/pytest_elasticsearch/executor.py:106-134 | `_exec_command` once the version is known: the 5.0.0 gate and the command as tokens. Stated by LegacyExecutor.BuildCommandSpec and LegacyExecutor.SettingsByName. |
| LegacyExecutor.StartupCommand | src/pytest_elasticsearch/executor.py:65-66 | What construction yields. Stated by LegacyExecutor.StartupOutcome. |
| LegacyExecutor.CommandKeyOrder | src/pytest_elasticsearch/executor.py:115-123 | The settings come in the fixed order, with `transport.tcp.port` always. |
| LegacyExecutor.CommandKeysDistinct | src/pytest_elasticsearch/executor.py:117-123 | No setting name occurs twice. |
| LegacyExecutor.CommandKeysPlain | src/pytest_elasticsearch/executor.py:117-123 | No setting name contains '='. |
| LegacyExecutor.SettingsByName | src/pytest_elasticsearch/executor.py:117-133 | Each name carries its configured value, with the inter-node port under `transport.tcp.port`. |
| LegacyExecutor.NoNewerSettings | src/pytest_elasticsearch/executor.py:115-123 | Neither `transport.port` nor a security setting is ever set. |
| LegacyExecutor.StartupOutcome | src/pytest_elasticsearch/executor.py:65-72 | Construction succeeds iff the banner is recognised and at least 5.0.0. Otherwise the error is the first failing check's. |
| LegacyExecutor.ElasticSearchExecutor.Init | src/pytest_elasticsearch/executor.py:54-64 | The fields hold the launch parameters, with nothing cached and nothing run. |
| LegacyExecutor.ElasticSearchExecutor.ReadVersion | src/pytest_elasticsearch/executor.py:74-104 | A cached version is reused without running the executable. Otherwise the executable runs once, and only a success is cached. |
| LegacyExecutor.ElasticSearchExecutor.ExecCommand | src/pytest_elasticsearch/executor.py:106-134 | The command is built from the cached version, or from the version read now. The executable runs only when nothing was cached. Afterwards the cache holds exactly the version read from the banner, or stays empty when that read failed. |
| LegacyExecutor.ElasticSearchExecutor.InitSuper | src/pytest_elasticsearch/executor.py:65-72 | The superclass receives the startup command, `http://<host>:<port>` and the timeout. On error, the error is the startup outcome's. Either way the version probe has run exactly once more, and the cache then holds the version parsed from the banner, if there is one; it is filled even when the version is then refused as not supported. |
| LegacyExecutor.ElasticSearchExecutor.Create | src/pytest_elasticsearch/executor.py:32-72 | A fresh executor exists iff the startup command succeeds. It carries that command, its parameters, the readiness URL and the timeout. It has run the executable once, and its cache holds exactly the version parsed from the banner. Every failure is the startup outcome's error. |
| LegacyExecutor.VersionAfterConstruction | src/pytest_elasticsearch/executor.py:65-104 | Constructing an executor and then reading `version` succeeds iff construction does, and gives the version parsed from the construction-time banner without running the executable again. |
| LegacyExecutor.TwoDigitMinorNotRecognized | src/pytest_elasticsearch/executor.py:85-88 | `Version: 7.10.0` is not recognised by this copy's pattern. |
| LegacyExecutor.BannerVersionLine | src/pytest_elasticsearch/executor.py:85-99 | A 6.8.0 banner line parses to 6.8.0. |
| Factories.ParamTableByVersion | src/pytest_elasticsearch/factories.py:68-91 | The seven base settings are always candidates. Before 5.0, path.home, default.path.work and discovery.zen.ping.multicast.enabled join them; from 5.0 on, only node.max_local_storage_nodes does. |
| Factories.ParamTableWellFormed | src/pytest_elasticsearch/factories.py:68-91 | No setting name and no argument occurs twice in the table. Every name is free of '=' and of spaces. |
| Factories.SelectFromTable | src/pytest_elasticsearch/factories.py:85-87 | Every emitted option comes from a table entry whose argument is not None, and carries that argument's value. |
| Factories.SelectLookup | src/pytest_elasticsearch/factories.py:93-95 | A table entry is emitted iff its argument is not None, with that argument's value. |
| Factories.SelectDistinct | src/pytest_elasticsearch/factories.py:85-87 | Distinct table names give distinct emitted names. |
| Factories.SelectMissing | src/pytest_elasticsearch/factories.py:85-87 | A name absent from the table is never emitted. |
| Factories.EmittedExactlyOnce | src/pytest_elasticsearch/factories.py:78-95 | Each candidate is emitted exactly once iff its argument is not None (an empty string still counts), with that value. Nothing else is emitted. |
| Factories.ParamTable | src/pytest_elasticsearch/factories.py:68-91 | `es_params_to_args` after its version-dependent update. Stated by Factories.ParamTableByVersion and Factories.ParamTableWellFormed. |
| Factories.Emitted | src/pytest_elasticsearch/factories.py:85-87 | The list comprehension that keeps the table entries whose argument is not None. Stated by Factories.EmittedExactlyOnce. |
| Factories.FormatOption | src/pytest_elasticsearch/factories.py:85-95 | An option starts with `--` iff the major version is below 5. From 5 on it is `-E key=value`. |
| Factories.ParseFormat | src/pytest_elasticsearch/factories.py:85-95 | Each option reads back as its setting in the dialect of its version. |
| Factories.OptionsReadBack | src/pytest_elasticsearch/factories.py:78-95 | The options read back one by one as exactly the emitted settings, in either dialect. |
| Factories.CmdlineTokens | src/pytest_elasticsearch/factories.py:97-101 | Split at spaces, the command is executable, `-p` and pid file, then the options. From 5.0 on, Elasticsearch reads back exactly the emitted settings from it. |
| Factories.Options | src/pytest_elasticsearch/factories.py:85-95 | `cmdline_opts` in the dialect of the version. Stated by Factories.OptionsReadBack. |
| Factories.GenerateEsCmdline | src/pytest_elasticsearch/factories.py:67-101 | `_generate_es_cmdline`: the executable, `-p`, the pid file and the options joined by single spaces. Stated by Factories.CmdlineTokens. |
| Factories.DefaultIndexStore | src/pytest_elasticsearch/factories.py:104-108 | The default store is `memory` iff the major version is below 2, and `fs` otherwise. |
| Factories.DefaultConfDir | src/pytest_elasticsearch/factories.py:111-115 | A configuration directory, `/etc/elasticsearch`, is given iff the major version is 2. |
| Factories.LongestGroupSpec | src/pytest_elasticsearch/factories.py:44 | The greedy group ends at the largest position at or below the bound where ", Build" follows on the same line. It is None iff there is no such position. |
| Factories.MatchVersionBuildSpec | src/pytest_elasticsearch/factories.py:44 | A match exists iff the output starts with `Version: ` and some end works. The group runs to the last such end. |
| Factories.BannerRoundTrip | src/pytest_elasticsearch/factories.py:44 | `Version: <v>, Build<rest>` yields `v` when `v` is one non-empty line and `rest` holds no further ", Build". |
| Factories.BannerOutputSpec | src/pytest_elasticsearch/factories.py:38-42 | The fallback probe never displaces a version the first output carried: when the first output starts with "Version", the version and build read are the first output's. The fallback is what is read whenever the first output does not start with "Version". |
| Factories.BannerOutput | src/pytest_elasticsearch/factories.py:38-42 | The output `_get_elastic_version` reads: the first probe's, or the `--version` probe's when the first does not start with "Version". Stated by Factories.BannerOutputSpec. |
| Factories.MatchVersionBuild | src/pytest_elasticsearch/factories.py:44 | `re.match(r'Version: (.+), Build', out).group(1)`. Stated by Factories.MatchVersionBuildSpec and Factories.BannerRoundTrip. |
| Factories.PathJoinSpec | src/pytest_elasticsearch/factories.py:174-185 | The joined path ends with the name, and starts with the directory unless the name is absolute. |
| Factories.PathJoinInjective | src/pytest_elasticsearch/factories.py:182-185 | Under one directory, different relative names give different paths. |
| Factories.MulticastText | src/pytest_elasticsearch/factories.py:188-190 | The lower-cased flag is "true" iff the flag is set, and "false" iff it is not. |
| Factories.FallbackOrder | src/pytest_elasticsearch/factories.py:164-180 | A non-empty argument decides the cluster name, index store and configuration directory. Next comes a non-empty configured value. Otherwise the port- or version-derived default applies. |
| Factories.ClusterName | src/pytest_elasticsearch/factories.py:164-166 | The cluster name chosen by argument, configuration, then `elasticsearch_cluster_<port>`. Stated by Factories.FallbackOrder. |
| Factories.IndexStoreTypeFor | src/pytest_elasticsearch/factories.py:168-169 | The index store chosen by argument, configuration, then the version default. Stated by Factories.FallbackOrder. |
| Factories.ConfPathFor | src/pytest_elasticsearch/factories.py:180 | The configuration directory chosen by argument, configuration, then the version default. Stated by Factories.FallbackOrder. |
| Factories.FixtureLogsPath | src/pytest_elasticsearch/factories.py:167-178 | The logs directory and prefix chosen by argument, configuration, then the temporary directory and the empty prefix, and the log path under them. |
| Factories.MulticastSetting | src/pytest_elasticsearch/factories.py:188-192 | The lower-cased flag when one is passed, otherwise the configured value. Stated through Factories.MulticastText. |
| Factories.ClusterNameFor | src/pytest_elasticsearch/factories.py:166 | `elasticsearch_cluster_<port>`. Stated by Factories.ClusterNameReadsBack. |
| Factories.PidFileFor | src/pytest_elasticsearch/factories.py:182-183 | `<tmpdir>/elasticsearch.<port>.pid`. Stated by Factories.PidFileApart. |
| Factories.HomePathFor | src/pytest_elasticsearch/factories.py:184-185 | `<tmpdir>/elasticsearch_<port>`. Stated by Factories.HomePathApart. |
| Factories.WorkPathFor | src/pytest_elasticsearch/factories.py:186 | The home path with `_tmp` appended. Stated by Factories.HomePathApart. |
| Factories.LogsPathFor | src/pytest_elasticsearch/factories.py:174-178 | `<logsdir>/<prefix>elasticsearch_<port>_logs`. Stated by Factories.LogsPathApart. |
| Factories.ClusterNameReadsBack | src/pytest_elasticsearch/factories.py:164-166 | The default cluster name is `elasticsearch_cluster_` followed by text that reads back as the port. |
| Factories.DistinctPortsDistinctPaths | src/pytest_elasticsearch/factories.py:164-186 | Fixtures on different ports never share a cluster name, pid file, home, work path or log path. |
| Factories.PidFileApart | src/pytest_elasticsearch/factories.py:182-183 | Different ports give different pid files. |
| Factories.HomePathApart | src/pytest_elasticsearch/factories.py:184-186 | Different ports give different home and work directories. |
| Factories.LogsPathApart | src/pytest_elasticsearch/factories.py:173-178 | Different ports give different log paths under the same directory and prefix. |
| Port.Span | src/pytest_elasticsearch/port.py:88 | `range(start, end + 1)` holds exactly the integers from start to end inclusive, and is empty when end < start. |
| Port.ItemPorts | src/pytest_elasticsearch/port.py:74-88 | The ports of one comma-separated item, or the error it raises. Stated by Port.SingleItem, Port.RangeItem, Port.DescendingItem, Port.ExtraDashItem, Port.NonIntegerStart and Port.NonIntegerEnd. |
| Port.Accumulate | src/pytest_elasticsearch/port.py:71-88 | The in-order fold over the items that stops at the first error. Stated by Port.AccumulateSpec and Port.FirstErrorStays. |
| Port.ParsePortsSpec | src/pytest_elasticsearch/port.py:60-90 | What `parse_ports` returns or raises. Stated by Port.ParsePortsMeaning and Port.UnspecifiedOnlyForQuery; Port.ParsePorts is proved equal to it. |
| Port.ParsePorts | src/pytest_elasticsearch/port.py:60-90 | The loop returns what the fold over the items gives: None for `?`, the union, or the first item's error. |
| Port.FirstErrorStays | src/pytest_elasticsearch/port.py:73-88 | Once an item raises, the items after it change nothing. |
| Port.AccumulateSpec | src/pytest_elasticsearch/port.py:71-88 | The fold succeeds iff every item is valid, and its result is the union of their ports. Otherwise it fails with the error of the first invalid item. |
| Port.GetPort | src/pytest_elasticsearch/port.py:40-57 | Anything `int()` accepts is used as that port, without a check. Otherwise the candidates are `parse_ports`'s set, or any free port for `?`, and its errors propagate unchanged. |
| Port.ParsePortsMeaning | src/pytest_elasticsearch/port.py:71-90 | Apart from `?`, the result is a set iff all items are valid: every port some item names, with duplicates collapsed. Otherwise it is the first failing item's error. |
| Port.UnspecifiedOnlyForQuery | src/pytest_elasticsearch/port.py:68-69 | None is returned iff the whole specification is `?`. |
| Port.QueryInsideListRejected | src/pytest_elasticsearch/port.py:74-79 | A `?` item inside a list is rejected. |
| Port.TrailingCommaRejected | src/pytest_elasticsearch/port.py:74-79 | A trailing comma leaves an empty last item, which is rejected. |
| Port.LastItemEmpty | src/pytest_elasticsearch/port.py:73 | After a trailing comma, the last item of the split is empty. |
| Port.SingleItem | src/pytest_elasticsearch/port.py:74-79 | An item without '-' gives its integer, or InvalidPortsDefinition with the whole specification. |
| Port.OneItem | src/pytest_elasticsearch/port.py:73-90 | A specification without commas is decided by its one item. |
| Port.TwoBounds | src/pytest_elasticsearch/port.py:83 | `start-end` splits at '-' into exactly its two bounds. |
| Port.RangeItem | src/pytest_elasticsearch/port.py:82-88 | A two-part range whose end does not sort before its start as text, and whose bounds are integers, gives the inclusive span. |
| Port.DescendingItem | src/pytest_elasticsearch/port.py:86-87 | A range whose end sorts before its start as text is InvalidPortsDefinition. |
| Port.ExtraDashItem | src/pytest_elasticsearch/port.py:82-85 | An item with a second '-' splits into more than two parts, whatever follows that dash, and is rejected with InvalidPortsDefinition carrying the whole specification. |
| Port.NonIntegerStart | src/pytest_elasticsearch/port.py:86-88 | A two-part range that passes the text check but whose start is not an integer raises `int()`'s ValueError naming the start, not InvalidPortsDefinition. |
| Port.NonIntegerEnd | src/pytest_elasticsearch/port.py:86-88 | With an integer start, a non-integer end raises ValueError naming the end. |
| Port.TextualDescentRejected | src/pytest_elasticsearch/port.py:86-87 | `999-1000` is rejected, because "1000" sorts before "999" as text. |
| Port.NumericDescentEmpty | src/pytest_elasticsearch/port.py:86-88 | `1000-999` passes the text check and gives no ports. |
| Port.OnePortRange | src/pytest_elasticsearch/port.py:86-88 | `7-7` gives the single port 7. |
| Port.ThreePartRange | src/pytest_elasticsearch/port.py:82-85 | `1-2-3` is rejected with InvalidPortsDefinition carrying the whole specification. |
| Port.NonNumericEndRaisesValueError | src/pytest_elasticsearch/port.py:86-88 | `5-x` passes the text check and then raises ValueError naming "x". |

## Left out

- The process lifecycle (start, stop, running, readiness polling, timeout handling) is inherited from mirakuru's `HTTPExecutor`, which is not part of this model. The executors model only what their own constructor and methods compute.
- Running the executable (`check_output`, `Popen`) and UTF-8 decoding are I/O. They are parameters: `Probe` for the executors, and the output strings for `_get_elastic_version`.
- The version libraries (`packaging.Version`, `pkg_resources.parse_version`) are replaced by a `major.minor.patch` triple with lexicographic order.
- The `semver.parse_version_info` step at the end of `_get_elastic_version` is a foreign library. The model stops at the captured group text, and a missing match (where Python raises `AttributeError` on `None`) is `None`.
- `_get_elastic_version` runs the executable with the single argument `"-v -V"`, then with `--version`. Only the choice between the two outputs is modelled.
- Regular expressions use Python 3's Unicode `\d`. The model accepts ASCII digits only.
- `int()` is modelled as an optional sign followed by ASCII digits. Surrounding whitespace, underscores and non-ASCII digits are not accepted, and `get_port(None)`'s `TypeError` is not modelled.
- `port_for.select_random` (random choice and socket probing) is left out. `Port.GetPort` returns the candidate set instead of a port.
- The `__str__` text of `InvalidPortsDefinition` is not modelled. The error carries the specification as its field.
- Mirakuru's shell splitting of the multi-line command string is not modelled. Both executors build the token sequence directly, keeping the single quotes around the `network.host` value literally.
- Factories.CmdlineTokens: stated for values and paths without spaces, and for at least one emitted option. With no options, the command ends in a space and splitting it adds an empty token.
- The `_generate_es_cmdline` dictionary's iteration order is not guaranteed in Python 2. The model emits in table order, and every property is stated per setting name, not per position.
- Option values enter the command through `%s`, so `Factories.Kwargs` holds each value already as text. A `None` argument is an absent key.
- Paths are their string form. `os.path.join` is modelled for POSIX paths.
- The kwargs assembly in `elasticsearch_proc_fixture` (`src/pytest_elasticsearch/factories.py:194-207`) is not modelled. This includes `multiprocessing.cpu_count()` for the storage-node limit.
- The pytest glue is not modelled: `return_config`, the fixture bodies, the teardown's `shutil.rmtree`, the client fixture, and both `plugin.py` files.
- Launch.NotRecognizedMessage and Launch.NotElasticsearchMessage: state the part of each message that carries data (the quoted output or executable), not the whole fixed wording.
