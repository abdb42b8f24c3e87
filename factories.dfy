/** The fixture factory of the older package layout
    (src/pytest_elasticsearch/factories.py): the command line built for the
    detected Elasticsearch version, the version-dependent defaults, the
    version text read from the executable's banner, and the names and paths
    derived from the chosen port. Only the major number of the detected
    version matters here. */
module Factories {
  import opened Wrappers
  import opened Text
  import opened Decimal
  import opened Launch

  /** The keyword arguments `_generate_es_cmdline` may draw a setting from. */
  datatype Arg =
    | Port | Host | LogsPath | ConfPath | Cluster | NetworkPublishHost | IndexStoreType
    | HomePath | WorkPath | MulticastEnabled | MaxLocalStorageNodes

  /** The keyword arguments whose value is not None, each already in the
      text `%s` gives it; an argument that is None is absent. */
  type Kwargs = map<Arg, string>

  /** The settings every version gets, with the argument feeding each. */
  const BaseParams: seq<(string, Arg)> :=
    [ ("http.port", Port), ("http.host", Host), ("default.path.logs", LogsPath),
      ("default.path.conf", ConfPath), ("cluster.name", Cluster),
      ("network.publish_host", NetworkPublishHost), ("index.store.type", IndexStoreType) ]

  /** The settings added before 5.0: 5.x forbids changing the home path and
      has no work path or multicast discovery. */
  const PreFiveParams: seq<(string, Arg)> :=
    [ ("path.home", HomePath), ("default.path.work", WorkPath),
      ("discovery.zen.ping.multicast.enabled", MulticastEnabled) ]

  /** The setting added from 5.0 on. */
  const FivePlusParams: seq<(string, Arg)> := [("node.max_local_storage_nodes", MaxLocalStorageNodes)]

  /** `es_params_to_args` after its version-dependent update. No name is in
      two of the parts, so the update is a concatenation. */
  function ParamTable(major: nat): seq<(string, Arg)>
  {
    BaseParams + (if major < 5 then PreFiveParams else FivePlusParams)
  }

  function TableKeys(table: seq<(string, Arg)>): set<string>
  {
    set i | 0 <= i < |table| :: table[i].0
  }

  /** No setting name and no argument occurs twice in the table. */
  predicate DistinctTable(table: seq<(string, Arg)>)
  {
    forall i, j :: 0 <= i < j < |table| ==> table[i].0 != table[j].0 && table[i].1 != table[j].1
  }

  /** A setting name that survives both the shell's splitting at spaces and
      Elasticsearch's splitting at the first '='. */
  predicate WordKey(key: string)
  {
    PlainKey(key) && ' ' !in key
  }

  /** The seven base settings are always candidates; before 5.0 the home,
      work and multicast settings join them, from 5.0 on only the storage
      node limit does. */
  lemma ParamTableByVersion(major: nat)
    ensures TableKeys(ParamTable(major)) ==
      {"http.port", "http.host", "default.path.logs", "default.path.conf", "cluster.name",
       "network.publish_host", "index.store.type"}
      + (if major < 5 then {"path.home", "default.path.work", "discovery.zen.ping.multicast.enabled"}
         else {"node.max_local_storage_nodes"})
    ensures |ParamTable(major)| == if major < 5 then 10 else 8
  {
    var t := ParamTable(major);
    if major < 5 {
      assert t == [t[0], t[1], t[2], t[3], t[4], t[5], t[6], t[7], t[8], t[9]];
    } else {
      assert t == [t[0], t[1], t[2], t[3], t[4], t[5], t[6], t[7]];
    }
  }

  lemma ParamTableWellFormed(major: nat)
    ensures DistinctTable(ParamTable(major))
    ensures forall i :: 0 <= i < |ParamTable(major)| ==> WordKey(ParamTable(major)[i].0)
  {
    var extra := if major < 5 then PreFiveParams else FivePlusParams;
    PartsWellFormed();
    PartsApart(major);
    var t := ParamTable(major);
    forall i, j | 0 <= i < j < |t| ensures t[i].0 != t[j].0 && t[i].1 != t[j].1 {
      if j >= |BaseParams| && i < |BaseParams| {
        assert t[j] == extra[j - |BaseParams|];
      } else if i >= |BaseParams| {
        assert t[i] == extra[i - |BaseParams|] && t[j] == extra[j - |BaseParams|];
      }
    }
    forall i | 0 <= i < |t| ensures WordKey(t[i].0) {
      if i >= |BaseParams| {
        assert t[i] == extra[i - |BaseParams|];
      }
    }
  }

  lemma PartsWellFormed()
    ensures DistinctTable(BaseParams) && DistinctTable(PreFiveParams) && DistinctTable(FivePlusParams)
    ensures forall i :: 0 <= i < |BaseParams| ==> WordKey(BaseParams[i].0)
    ensures forall i :: 0 <= i < |PreFiveParams| ==> WordKey(PreFiveParams[i].0)
    ensures forall i :: 0 <= i < |FivePlusParams| ==> WordKey(FivePlusParams[i].0)
  {
    BaseDistinct();
    BaseWords();
    ExtraWellFormed();
  }

  lemma ExtraWellFormed()
    ensures DistinctTable(PreFiveParams) && DistinctTable(FivePlusParams)
    ensures forall i :: 0 <= i < |PreFiveParams| ==> WordKey(PreFiveParams[i].0)
    ensures forall i :: 0 <= i < |FivePlusParams| ==> WordKey(FivePlusParams[i].0)
  {
    PreFiveWords();
    LongWord("node.max_local_storage_nodes");
  }

  lemma PreFiveWords()
    ensures forall i :: 0 <= i < |PreFiveParams| ==> WordKey(PreFiveParams[i].0)
  {
    LongWord("discovery.zen.ping.multicast.enabled");
  }

  /** A name made of letters, digits, dots and underscores. */
  lemma LongWord(key: string)
    requires |key| > 0 && forall i :: 0 <= i < |key| ==> key[i] == '.' || key[i] == '_' || 'a' <= key[i] <= 'z'
    ensures WordKey(key)
  {
  }

  lemma BaseDistinct()
    ensures DistinctTable(BaseParams)
  {
  }

  lemma BaseWords()
    ensures forall i :: 0 <= i < |BaseParams| ==> WordKey(BaseParams[i].0)
  {
  }

  /** No base entry shares a name or an argument with a version-specific one. */
  lemma PartsApart(major: nat)
    ensures var extra := if major < 5 then PreFiveParams else FivePlusParams;
      forall i, j :: 0 <= i < |BaseParams| && 0 <= j < |extra| ==>
        BaseParams[i].0 != extra[j].0 && BaseParams[i].1 != extra[j].1
  {
  }

  /** The settings actually emitted: the table entries whose argument is
      present, each with that argument's value, in table order. */
  function Select(table: seq<(string, Arg)>, kw: Kwargs): seq<Setting>
  {
    if |table| == 0 then []
    else
      (if table[0].1 in kw then [Setting(table[0].0, kw[table[0].1])] else [])
      + Select(table[1..], kw)
  }

  function Emitted(major: nat, kw: Kwargs): seq<Setting>
  {
    Select(ParamTable(major), kw)
  }

  /** `s` is some table entry's name with its present argument's value. */
  predicate FromTable(table: seq<(string, Arg)>, kw: Kwargs, s: Setting)
  {
    exists i :: 0 <= i < |table| && table[i].1 in kw && s == Setting(table[i].0, kw[table[i].1])
  }

  /** Every emitted setting comes from a table entry whose argument is
      present, and carries that argument's value. */
  lemma {:induction false} SelectFromTable(table: seq<(string, Arg)>, kw: Kwargs)
    ensures forall j :: 0 <= j < |Select(table, kw)| ==> FromTable(table, kw, Select(table, kw)[j])
  {
    if |table| > 0 {
      SelectFromTable(table[1..], kw);
      var head := if table[0].1 in kw then [Setting(table[0].0, kw[table[0].1])] else [];
      var rest := Select(table[1..], kw);
      assert Select(table, kw) == head + rest;
      forall j | 0 <= j < |Select(table, kw)| ensures FromTable(table, kw, Select(table, kw)[j]) {
        if j < |head| {
          assert Select(table, kw)[j] == Setting(table[0].0, kw[table[0].1]);
        } else {
          assert Select(table, kw)[j] == rest[j - |head|];
          assert FromTable(table[1..], kw, rest[j - |head|]);
          var i :| 0 <= i < |table[1..]| && table[1..][i].1 in kw
            && rest[j - |head|] == Setting(table[1..][i].0, kw[table[1..][i].1]);
          assert table[1..][i] == table[i + 1];
        }
      }
    }
  }

  /** A name the table does not hold is never emitted. */
  lemma {:induction false} SelectMissing(table: seq<(string, Arg)>, kw: Kwargs, key: string)
    requires key !in TableKeys(table)
    ensures Lookup(Select(table, kw), key) == None
  {
    SelectFromTable(table, kw);
  }

  /** With distinct names, the emitted settings have distinct names too. */
  lemma {:induction false} SelectDistinct(table: seq<(string, Arg)>, kw: Kwargs)
    requires DistinctTable(table)
    ensures DistinctKeys(Select(table, kw))
  {
    if |table| > 0 {
      SelectDistinct(table[1..], kw);
      SelectMissing(table[1..], kw, table[0].0);
      var head := if table[0].1 in kw then [Setting(table[0].0, kw[table[0].1])] else [];
      var rest := Select(table[1..], kw);
      var s := Select(table, kw);
      forall i, j | 0 <= i < j < |s| ensures s[i].key != s[j].key {
        if i < |head| {
          assert s[j] == rest[j - 1];
          assert s[i].key == table[0].0;
        } else {
          assert s[i] == rest[i - |head|] && s[j] == rest[j - |head|];
        }
      }
    }
  }

  /** Each table entry is emitted, with its argument's value, exactly when
      its argument is present; an empty but present value still counts. */
  lemma {:induction false} SelectLookup(table: seq<(string, Arg)>, kw: Kwargs, i: nat)
    requires DistinctTable(table) && i < |table|
    ensures Lookup(Select(table, kw), table[i].0) ==
      if table[i].1 in kw then Some(kw[table[i].1]) else None
  {
    var head := if table[0].1 in kw then [Setting(table[0].0, kw[table[0].1])] else [];
    var rest := Select(table[1..], kw);
    assert Select(table, kw) == head + rest;
    if i == 0 {
      SelectMissing(table[1..], kw, table[0].0);
      if head == [] {
        assert Select(table, kw) == rest;
      }
    } else {
      SelectLookup(table[1..], kw, i - 1);
      assert table[1..][i - 1] == table[i];
      if head != [] {
        assert head[0].key == table[0].0 != table[i].0;
      } else {
        assert Select(table, kw) == rest;
      }
    }
  }

  /** A setting name is emitted exactly once when its argument is not None
      and never otherwise, with the argument's value; nothing else is
      emitted. */
  lemma EmittedExactlyOnce(major: nat, kw: Kwargs)
    ensures DistinctKeys(Emitted(major, kw))
    ensures forall i :: 0 <= i < |ParamTable(major)| ==>
      Lookup(Emitted(major, kw), ParamTable(major)[i].0) ==
        if ParamTable(major)[i].1 in kw then Some(kw[ParamTable(major)[i].1]) else None
    ensures forall key :: key !in TableKeys(ParamTable(major)) ==> Lookup(Emitted(major, kw), key) == None
  {
    var table := ParamTable(major);
    ParamTableWellFormed(major);
    SelectDistinct(table, kw);
    forall i | 0 <= i < |table|
      ensures Lookup(Emitted(major, kw), table[i].0) == if table[i].1 in kw then Some(kw[table[i].1]) else None
    {
      SelectLookup(table, kw, i);
    }
    forall key | key !in TableKeys(table) ensures Lookup(Emitted(major, kw), key) == None {
      SelectMissing(table, kw, key);
    }
  }

  /** One option as `_generate_es_cmdline` writes it: `--key=value` before
      5.0, `-E key=value` from 5.0 on. */
  function FormatOption(major: nat, s: Setting): (option: string)
    ensures major < 5 <==> StartsWith(option, "--")
  {
    if major < 5 then "--" + Assignment(s)
    else
      var option := "-E " + Assignment(s);
      assert option[1] == 'E';
      option
  }

  /** How Elasticsearch of the given major version reads one option. */
  function ParseOption(major: nat, option: string): Option<Setting>
  {
    var lead := if major < 5 then "--" else "-E ";
    if StartsWith(option, lead) then SplitSetting(option[|lead|..]) else None
  }

  /** Each option reads back as the setting it was written from. */
  lemma ParseFormat(major: nat, s: Setting)
    requires PlainKey(s.key)
    ensures ParseOption(major, FormatOption(major, s)) == Some(s)
  {
    var lead := if major < 5 then "--" else "-E ";
    var option := FormatOption(major, s);
    AppendParts(lead, Assignment(s));
    SplitRendered(s);
  }

  function FormatAll(major: nat, settings: seq<Setting>): (options: seq<string>)
    ensures |options| == |settings|
    ensures forall i :: 0 <= i < |settings| ==> options[i] == FormatOption(major, settings[i])
  {
    if |settings| == 0 then [] else [FormatOption(major, settings[0])] + FormatAll(major, settings[1..])
  }

  /** `cmdline_opts`. */
  function Options(major: nat, kw: Kwargs): seq<string>
  {
    FormatAll(major, Emitted(major, kw))
  }

  /** The options read back as exactly the emitted settings, whichever
      dialect they were written in. */
  lemma OptionsReadBack(major: nat, kw: Kwargs)
    ensures |Options(major, kw)| == |Emitted(major, kw)|
    ensures forall i :: 0 <= i < |Options(major, kw)| ==>
      ParseOption(major, Options(major, kw)[i]) == Some(Emitted(major, kw)[i])
  {
    var e := Emitted(major, kw);
    ParamTableWellFormed(major);
    SelectFromTable(ParamTable(major), kw);
    forall i | 0 <= i < |e| ensures ParseOption(major, Options(major, kw)[i]) == Some(e[i]) {
      ParseFormat(major, e[i]);
    }
  }

  /** `"{daemon} -p {pid_file} {opts}"` with the options joined by spaces. */
  function GenerateEsCmdline(major: nat, executable: string, pidFile: string, kw: Kwargs): string
  {
    executable + " -p " + pidFile + " " + JoinWith(Options(major, kw), ' ')
  }

  /** No present argument's value contains a space. */
  predicate SpaceFree(kw: Kwargs)
  {
    forall a :: a in kw ==> ' ' !in kw[a]
  }

  /** Split at single spaces (this model's reading of the command string;
      the launcher's shell-style splitting, which also treats quotes and
      backslashes, is not modelled), the command is the executable, `-p`, the pid file and then the options:
      one token each before 5.0, and from 5.0 on the `-E key=value` pairs
      from which Elasticsearch reads back exactly the emitted settings. */
  lemma CmdlineTokens(major: nat, executable: string, pidFile: string, kw: Kwargs)
    requires ' ' !in executable && ' ' !in pidFile && SpaceFree(kw)
    requires |Emitted(major, kw)| > 0
    ensures var tokens := SplitOn(GenerateEsCmdline(major, executable, pidFile, kw), ' ');
      && (major < 5 ==> tokens == [executable, "-p", pidFile] + Options(major, kw))
      && (major >= 5 ==> tokens == [executable, "-p", pidFile] + Render(Emitted(major, kw)))
      && (major >= 5 ==> SettingsOf(tokens) == Some(Emitted(major, kw)))
  {
    var e := Emitted(major, kw);
    EmittedSpaceless(major, kw);
    TokensSpaceless(major, e);
    JoinOptions(major, e);
    SplitCommand(executable, pidFile, Tokens(major, e));
    if major >= 5 {
      var tokens := [executable, "-p", pidFile] + Render(e);
      assert tokens[3..] == Render(e);
      DecodeRender(e);
    }
  }

  /** The option tokens as the launcher sees them: one per option before
      5.0, the `-E` flag and the `key=value` apart from 5.0 on. */
  function Tokens(major: nat, e: seq<Setting>): (tokens: seq<string>)
    ensures |e| > 0 ==> |tokens| > 0
  {
    if major < 5 then FormatAll(major, e) else Render(e)
  }

  /** Settings whose names and values hold no space. */
  predicate Spaceless(e: seq<Setting>)
  {
    forall k :: 0 <= k < |e| ==> WordKey(e[k].key) && ' ' !in e[k].value
  }

  lemma EmittedSpaceless(major: nat, kw: Kwargs)
    requires SpaceFree(kw)
    ensures Spaceless(Emitted(major, kw))
  {
    var table := ParamTable(major);
    var e := Emitted(major, kw);
    ParamTableWellFormed(major);
    SelectFromTable(table, kw);
    forall k | 0 <= k < |e| ensures WordKey(e[k].key) && ' ' !in e[k].value {
      assert FromTable(table, kw, e[k]);
      var i :| 0 <= i < |table| && table[i].1 in kw && e[k] == Setting(table[i].0, kw[table[i].1]);
    }
  }

  lemma TokensSpaceless(major: nat, e: seq<Setting>)
    requires Spaceless(e)
    ensures forall j :: 0 <= j < |Tokens(major, e)| ==> ' ' !in Tokens(major, e)[j]
  {
    if major < 5 {
      OptionsSpaceless(major, e);
    } else {
      RenderSpaceless(e);
    }
  }

  lemma OptionsSpaceless(major: nat, e: seq<Setting>)
    requires Spaceless(e) && major < 5
    ensures forall j :: 0 <= j < |FormatAll(major, e)| ==> ' ' !in FormatAll(major, e)[j]
  {
    forall j | 0 <= j < |e| ensures ' ' !in FormatAll(major, e)[j] {
      AssignmentSpaceless(e[j]);
      assert FormatAll(major, e)[j] == "--" + Assignment(e[j]);
    }
  }

  lemma RenderSpaceless(e: seq<Setting>)
    requires Spaceless(e)
    ensures forall j :: 0 <= j < |Render(e)| ==> ' ' !in Render(e)[j]
  {
    forall j | 0 <= j < |Render(e)| ensures ' ' !in Render(e)[j] {
      var k := j / 2;
      RenderAt(e, k);
      AssignmentSpaceless(e[k]);
      assert j == 2 * k || j == 2 * k + 1;
    }
  }

  lemma AssignmentSpaceless(s: Setting)
    requires WordKey(s.key) && ' ' !in s.value
    ensures ' ' !in Assignment(s)
  {
  }

  lemma {:induction false} RenderAt(e: seq<Setting>, k: nat)
    requires k < |e|
    ensures Render(e)[2 * k] == "-E" && Render(e)[2 * k + 1] == Assignment(e[k])
  {
    if k > 0 {
      RenderAt(e[1..], k - 1);
      assert Render(e) == ["-E", Assignment(e[0])] + Render(e[1..]);
    }
  }

  /** Split at spaces, `<executable> -p <pidfile> <token> ...` gives back its
      words when none of them holds a space. */
  lemma SplitCommand(executable: string, pidFile: string, body: seq<string>)
    requires ' ' !in executable && ' ' !in pidFile && |body| > 0
    requires forall j :: 0 <= j < |body| ==> ' ' !in body[j]
    ensures SplitOn(executable + " -p " + pidFile + " " + JoinWith(body, ' '), ' ') == [executable, "-p", pidFile] + body
  {
    var items := [executable, "-p", pidFile] + body;
    JoinCommand(executable, pidFile, body);
    forall j | 0 <= j < |items| ensures ' ' !in items[j] {
      if j >= 3 {
        assert items[j] == body[j - 3];
      }
    }
    SplitJoin(items, ' ');
  }

  lemma JoinCommand(executable: string, pidFile: string, body: seq<string>)
    requires |body| > 0
    ensures JoinWith([executable, "-p", pidFile] + body, ' ') == executable + " -p " + pidFile + " " + JoinWith(body, ' ')
  {
    var rest := JoinWith(body, ' ');
    var flag := "-p";
    JoinCons(pidFile, body, ' ');
    JoinCons(flag, [pidFile] + body, ' ');
    JoinCons(executable, [flag] + ([pidFile] + body), ' ');
    Nest(executable, flag, pidFile, body);
    Spaced(executable, pidFile, rest);
  }

  lemma Nest(a: string, b: string, c: string, body: seq<string>)
    ensures [a, b, c] + body == [a] + ([b] + ([c] + body))
  {
  }

  lemma Spaced(a: string, b: string, c: string)
    ensures a + [' '] + ("-p" + [' '] + (b + [' '] + c)) == a + " -p " + b + " " + c
  {
    var flag := "-p";
    assert " -p " == [' '] + flag + [' '];
  }

  /** Joined with spaces, the `-E key=value` options and the rendered
      token pairs are the same text. */
  lemma {:induction false} JoinOptions(major: nat, e: seq<Setting>)
    ensures JoinWith(Tokens(major, e), ' ') == JoinWith(FormatAll(major, e), ' ')
  {
    if major >= 5 {
      JoinRender(major, e);
    }
  }

  lemma {:induction false} JoinRender(major: nat, e: seq<Setting>)
    requires major >= 5
    ensures JoinWith(Render(e), ' ') == JoinWith(FormatAll(major, e), ' ')
  {
    if |e| > 0 {
      var pair := Assignment(e[0]);
      JoinRender(major, e[1..]);
      assert Render(e) == ["-E", pair] + Render(e[1..]);
      assert FormatAll(major, e) == ["-E " + pair] + FormatAll(major, e[1..]);
      JoinPair(pair, Render(e[1..]), FormatAll(major, e[1..]));
    }
  }

  /** One step of `JoinRender`: the pair `-E`, `p` joins like the option `-E p`. */
  lemma JoinPair(p: string, r1: seq<string>, r2: seq<string>)
    requires JoinWith(r1, ' ') == JoinWith(r2, ' ') && (|r1| == 0 <==> |r2| == 0)
    ensures JoinWith(["-E", p] + r1, ' ') == JoinWith(["-E " + p] + r2, ' ')
  {
    var flag := "-E";
    assert flag + [' '] + p == "-E " + p;
    if |r1| == 0 {
      assert ["-E", p] + r1 == [flag] + [p];
      assert ["-E " + p] + r2 == ["-E " + p];
      JoinCons(flag, [p], ' ');
    } else {
      var tail := JoinWith(r1, ' ');
      JoinCons(p, r1, ' ');
      JoinCons(flag, [p] + r1, ' ');
      JoinCons("-E " + p, r2, ' ');
      assert ["-E", p] + r1 == [flag] + ([p] + r1);
      assert flag + [' '] + (p + [' '] + tail) == ("-E " + p) + [' '] + tail;
    }
  }

  /** `_default_index_store`: the in-memory store below 2.0, the file-system
      store from 2.0 on. */
  function DefaultIndexStore(major: nat): (store: string)
    ensures store == "memory" || store == "fs"
    ensures store == "memory" <==> major < 2
  {
    if major < 2 then "memory" else "fs"
  }

  /** `_default_conf_dir`: only 2.x gets a configuration directory. */
  function DefaultConfDir(major: nat): (dir: Option<string>)
    ensures dir.Some? <==> major == 2
    ensures dir.Some? ==> dir.value == "/etc/elasticsearch"
  {
    if major == 2 then Some("/etc/elasticsearch") else None
  }

  /** The output whose banner `_get_elastic_version` reads: the first probe's
      when it starts with "Version", otherwise the `--version` probe's. */
  function BannerOutput(first: string, second: string): string
  {
    if StartsWith(first, "Version") then first else second
  }

  const VersionLead := "Version: "
  const BuildMark := ", Build"

  /** Group 1 can end at `j`: the text after "Version: " up to `j` is one
      or more characters without a line break, and ", Build" follows. */
  predicate GroupEndsAt(out: string, j: int)
  {
    |VersionLead| < j <= |out| && '\n' !in out[|VersionLead|..j] && StartsWith(out[j..], BuildMark)
  }

  /** `re.match(r'Version: (.+), Build', out).group(1)`, or None where the
      match object is None. */
  function MatchVersionBuild(out: string): Option<string>
  {
    if StartsWith(out, VersionLead) then LongestGroup(out, |out|) else None
  }

  /** The greedy `.+` backtracks from the longest candidate end downwards
      and keeps the first that lets ", Build" follow. */
  function LongestGroup(out: string, j: nat): Option<string>
    requires |VersionLead| <= |out| && j <= |out|
  {
    if j <= |VersionLead| then None
    else if GroupEndsAt(out, j) then Some(out[|VersionLead|..j])
    else LongestGroup(out, j - 1)
  }

  /** `k` is the largest end at or below `j` that group 1 can have. */
  predicate LastEnd(out: string, k: int, j: int)
  {
    k <= j && GroupEndsAt(out, k) && forall m :: k < m <= j ==> !GroupEndsAt(out, m)
  }

  /** The scan finds the largest end at or below `j`, or reports none. */
  lemma {:induction false} LongestGroupSpec(out: string, j: nat)
    requires |VersionLead| <= |out| && j <= |out|
    ensures var g := LongestGroup(out, j);
      && (g.None? <==> forall k :: k <= j ==> !GroupEndsAt(out, k))
      && (g.Some? ==> exists k :: LastEnd(out, k, j) && g.value == out[|VersionLead|..k])
  {
    if j > |VersionLead| {
      if GroupEndsAt(out, j) {
        assert LastEnd(out, j, j);
      } else {
        LongestGroupSpec(out, j - 1);
        if LongestGroup(out, j - 1).Some? {
          var k :| LastEnd(out, k, j - 1) && LongestGroup(out, j - 1).value == out[|VersionLead|..k];
          assert LastEnd(out, k, j);
        }
      }
    }
  }

  /** A match exists exactly when the output starts with "Version: " and
      some end works; the group then runs up to the last such end. */
  lemma MatchVersionBuildSpec(out: string)
    ensures var g := MatchVersionBuild(out);
      && (g.Some? <==> StartsWith(out, VersionLead) && exists k :: GroupEndsAt(out, k))
      && (g.Some? ==> exists k :: LastEnd(out, k, |out|) && g.value == out[|VersionLead|..k])
  {
    if StartsWith(out, VersionLead) {
      LongestGroupSpec(out, |out|);
    }
  }

  /** A banner line `Version: <v>, Build<rest>` yields `v` when `v` is a
      non-empty single line and `rest` holds no further ", Build". */
  lemma BannerRoundTrip(v: string, rest: string)
    requires |v| > 0 && '\n' !in v
    requires forall k :: 0 <= k <= |rest| ==> !StartsWith(rest[k..], BuildMark)
    ensures MatchVersionBuild(VersionLead + v + BuildMark + rest) == Some(v)
  {
    var out := VersionLead + v + BuildMark + rest;
    var end := |VersionLead| + |v|;
    assert out[..|VersionLead|] == VersionLead;
    assert out[|VersionLead|..end] == v;
    assert out[end..] == BuildMark + rest;
    assert GroupEndsAt(out, end) by {
      AppendParts(BuildMark, rest);
    }
    forall m | end < m <= |out| ensures !GroupEndsAt(out, m) {
      if m < end + |BuildMark| {
        assert out[m] == BuildMark[m - end] != ',';
      } else {
        assert out[m..] == rest[m - end - |BuildMark|..];
      }
    }
    LongestGroupSpec(out, |out|);
  }

  /** The fallback probe never displaces a version the first probe's output
      carried, and is read whenever the first output is not a banner. */
  lemma BannerOutputSpec(first: string, second: string)
    ensures MatchVersionBuild(first).Some? ==>
      MatchVersionBuild(BannerOutput(first, second)) == MatchVersionBuild(first)
    ensures !StartsWith(first, "Version") ==>
      MatchVersionBuild(BannerOutput(first, second)) == MatchVersionBuild(second)
    ensures StartsWith(first, "Version") ==>
      MatchVersionBuild(BannerOutput(first, second)) == MatchVersionBuild(first)
  {
    if StartsWith(first, VersionLead) {
      var word := "Version";
      assert VersionLead[..|word|] == word;
      assert first[..|word|] == first[..|VersionLead|][..|word|];
    }
  }

  /** `os.path.join(a, b)` on POSIX paths: an absolute `b` replaces `a`;
      otherwise a '/' goes between them unless `a` is empty or already ends
      with one. */
  function PathJoin(a: string, b: string): string
  {
    if StartsWith(b, "/") then b
    else if |a| == 0 || a[|a| - 1] == '/' then a + b
    else a + "/" + b
  }

  /** The joined path ends with `b`, and starts with `a` unless `b` is absolute. */
  lemma PathJoinSpec(a: string, b: string)
    ensures var p := PathJoin(a, b);
      && |b| <= |p| && p[|p| - |b|..] == b
      && (!StartsWith(b, "/") ==> StartsWith(p, a))
  {
    var p := PathJoin(a, b);
    if !StartsWith(b, "/") {
      if |a| == 0 || a[|a| - 1] == '/' {
        AppendParts(a, b);
      } else {
        AppendParts(a + "/", b);
        assert p[..|a|] == (a + "/")[..|a|];
      }
    }
  }

  /** Under one directory, relative names that differ give paths that differ. */
  lemma PathJoinInjective(a: string, b1: string, b2: string)
    requires !StartsWith(b1, "/") && !StartsWith(b2, "/")
    requires PathJoin(a, b1) == PathJoin(a, b2)
    ensures b1 == b2
  {
    if |a| == 0 || a[|a| - 1] == '/' {
      AppendParts(a, b1);
      AppendParts(a, b2);
    } else {
      AppendParts(a + "/", b1);
      AppendParts(a + "/", b2);
    }
  }

  /** `elasticsearch_cluster_<port>`, the cluster name when none is given. */
  function ClusterNameFor(port: int): string
  {
    "elasticsearch_cluster_" + IntToString(port)
  }

  /** `<tmpdir>/elasticsearch.<port>.pid`. */
  function PidFileFor(tmpdir: string, port: int): string
  {
    PathJoin(tmpdir, "elasticsearch." + IntToString(port) + ".pid")
  }

  /** `<tmpdir>/elasticsearch_<port>`, the home directory before 5.0. */
  function HomePathFor(tmpdir: string, port: int): string
  {
    PathJoin(tmpdir, "elasticsearch_" + IntToString(port))
  }

  /** The work directory: the home path with `_tmp` appended. */
  function WorkPathFor(homePath: string): string
  {
    homePath + "_tmp"
  }

  /** `<logsdir>/<prefix>elasticsearch_<port>_logs`. */
  function LogsPathFor(logsdir: string, prefix: string, port: int): string
  {
    PathJoin(logsdir, prefix + "elasticsearch_" + IntToString(port) + "_logs")
  }

  /** `str(flag).lower()`. */
  function MulticastText(flag: bool): (text: string)
    ensures text == "true" <==> flag
    ensures text == "false" <==> !flag
  {
    if flag then "true" else "false"
  }

  /** A string option is truthy for Python's `or` when set and non-empty. */
  predicate Truthy(value: Option<string>)
  {
    value.Some? && value.value != ""
  }

  /** `value or fallback`. */
  function Or(value: Option<string>, fallback: string): string
  {
    if Truthy(value) then value.value else fallback
  }

  /** `cluster_name or config['cluster_name'] or 'elasticsearch_cluster_<port>'`. */
  function ClusterName(argument: Option<string>, configured: Option<string>, port: int): string
  {
    Or(argument, Or(configured, ClusterNameFor(port)))
  }

  /** `index_store_type or config['index_store_type'] or _default_index_store(version)`. */
  function IndexStoreTypeFor(argument: Option<string>, configured: Option<string>, major: nat): string
  {
    Or(argument, Or(configured, DefaultIndexStore(major)))
  }

  /** `elasticsearch_logsdir or config['logsdir'] or tmpdir`, then the logs
      path under it with `logs_prefix or config['logs_prefix'] or ''`. */
  function FixtureLogsPath(logsdirArg: Option<string>, logsdirConf: Option<string>,
                    prefixArg: Option<string>, prefixConf: Option<string>, tmpdir: string, port: int): string
  {
    LogsPathFor(Or(logsdirArg, Or(logsdirConf, tmpdir)), Or(prefixArg, Or(prefixConf, "")), port)
  }

  /** `elasticsearch_confdir or config['confdir'] or _default_conf_dir(version)`. */
  function ConfPathFor(argument: Option<string>, configured: Option<string>, major: nat): Option<string>
  {
    if Truthy(argument) then argument
    else if Truthy(configured) then configured
    else DefaultConfDir(major)
  }

  /** The multicast setting: the lower-cased flag when one is passed,
      otherwise the configured value as it is. */
  function MulticastSetting(argument: Option<bool>, configured: Option<string>): Option<string>
  {
    if argument.Some? then Some(MulticastText(argument.value)) else configured
  }

  /** A non-empty argument decides each setting, a non-empty configured
      value decides it next, and otherwise the port- or version-derived
      default applies: an empty string counts as not given. */
  lemma FallbackOrder(argument: Option<string>, configured: Option<string>, port: int, major: nat)
    ensures Truthy(argument) ==>
      && ClusterName(argument, configured, port) == argument.value
      && IndexStoreTypeFor(argument, configured, major) == argument.value
      && ConfPathFor(argument, configured, major) == argument
    ensures !Truthy(argument) && Truthy(configured) ==>
      && ClusterName(argument, configured, port) == configured.value
      && IndexStoreTypeFor(argument, configured, major) == configured.value
      && ConfPathFor(argument, configured, major) == configured
    ensures !Truthy(argument) && !Truthy(configured) ==>
      && ClusterName(argument, configured, port) == ClusterNameFor(port)
      && IndexStoreTypeFor(argument, configured, major) == DefaultIndexStore(major)
      && ConfPathFor(argument, configured, major) == DefaultConfDir(major)
  {
  }

  /** The port reads back from the default cluster name. */
  lemma ClusterNameReadsBack(port: int)
    ensures var name, lead := ClusterNameFor(port), "elasticsearch_cluster_";
      StartsWith(name, lead) && ParseInt(name[|lead|..]) == Some(port)
  {
    var lead := "elasticsearch_cluster_";
    AppendParts(lead, IntToString(port));
    IntToStringParses(port);
  }

  /** Two fixtures on different ports never share a cluster name, a pid
      file, a home or work directory, or a log directory. */
  lemma DistinctPortsDistinctPaths(tmpdir: string, logsdir: string, prefix: string, p: int, q: int)
    requires p != q
    ensures ClusterNameFor(p) != ClusterNameFor(q)
    ensures PidFileFor(tmpdir, p) != PidFileFor(tmpdir, q)
    ensures HomePathFor(tmpdir, p) != HomePathFor(tmpdir, q)
    ensures WorkPathFor(HomePathFor(tmpdir, p)) != WorkPathFor(HomePathFor(tmpdir, q))
    ensures LogsPathFor(logsdir, prefix, p) != LogsPathFor(logsdir, prefix, q)
  {
    ClusterNameApart(p, q);
    PidFileApart(tmpdir, p, q);
    HomePathApart(tmpdir, p, q);
    LogsPathApart(logsdir, prefix, p, q);
  }

  lemma ClusterNameApart(p: int, q: int)
    requires p != q
    ensures ClusterNameFor(p) != ClusterNameFor(q)
  {
    ClusterNameReadsBack(p);
    ClusterNameReadsBack(q);
  }

  /** Text between a fixed lead and a fixed tail determines the middle. */
  lemma Middle(lead: string, m1: string, m2: string, tail: string)
    requires lead + m1 + tail == lead + m2 + tail
    ensures m1 == m2
  {
    var s := lead + m1 + tail;
    assert m1 == s[|lead|..|s| - |tail|];
    assert m2 == (lead + m2 + tail)[|lead|..|s| - |tail|];
  }

  lemma PidFileApart(tmpdir: string, p: int, q: int)
    requires p != q
    ensures PidFileFor(tmpdir, p) != PidFileFor(tmpdir, q)
  {
    var lead := "elasticsearch.";
    var b1, b2 := lead + IntToString(p) + ".pid", lead + IntToString(q) + ".pid";
    if PidFileFor(tmpdir, p) == PidFileFor(tmpdir, q) {
      assert b1[0] == 'e' && b2[0] == 'e';
      PathJoinInjective(tmpdir, b1, b2);
      Middle(lead, IntToString(p), IntToString(q), ".pid");
      IntToStringInjective(p, q);
    }
  }

  lemma HomePathApart(tmpdir: string, p: int, q: int)
    requires p != q
    ensures HomePathFor(tmpdir, p) != HomePathFor(tmpdir, q)
    ensures WorkPathFor(HomePathFor(tmpdir, p)) != WorkPathFor(HomePathFor(tmpdir, q))
  {
    var lead := "elasticsearch_";
    var b1, b2 := lead + IntToString(p), lead + IntToString(q);
    if HomePathFor(tmpdir, p) == HomePathFor(tmpdir, q) {
      assert b1[0] == 'e' && b2[0] == 'e';
      PathJoinInjective(tmpdir, b1, b2);
      AppendParts(lead, IntToString(p));
      AppendParts(lead, IntToString(q));
      IntToStringInjective(p, q);
    }
    var h1, h2 := HomePathFor(tmpdir, p), HomePathFor(tmpdir, q);
    if WorkPathFor(h1) == WorkPathFor(h2) {
      AppendParts(h1, "_tmp");
      AppendParts(h2, "_tmp");
    }
  }

  lemma LogsPathApart(logsdir: string, prefix: string, p: int, q: int)
    requires p != q
    ensures LogsPathFor(logsdir, prefix, p) != LogsPathFor(logsdir, prefix, q)
  {
    var lead := prefix + "elasticsearch_";
    var b1, b2 := lead + IntToString(p) + "_logs", lead + IntToString(q) + "_logs";
    if LogsPathFor(logsdir, prefix, p) == LogsPathFor(logsdir, prefix, q) {
      assert b1[..|lead|] == lead == b2[..|lead|];
      assert b1[0] == b2[0];
      if StartsWith(b1, "/") {
        assert b1 == b2;
      } else {
        PathJoinInjective(logsdir, b1, b2);
      }
      Middle(lead, IntToString(p), IntToString(q), "_logs");
      IntToStringInjective(p, q);
    }
  }
}
