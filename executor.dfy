/** The executor of the current package (pytest_elasticsearch/executor.py):
    Elasticsearch 7.0.0 and later, with the inter-node port setting renamed
    at 8.0.0 and security switched off. */
module Executor {
  import opened Wrappers
  import opened Text
  import opened Decimal
  import opened Versions
  import opened Banner
  import opened Launch

  /** `Version: (\d)\.(\d+)\.(\d+)`: one-digit major, any minor and patch. */
  const VersionPattern := Pattern(multiDigitMinor := true)

  const MinimumVersion := Version(7, 0, 0)

  /** From this version on the inter-node port is `transport.port`; before
      it, `transport.tcp.port`. */
  const TransportPortSince := Version(8, 0, 0)

  function TransportKey(v: Version): string
  {
    if Less(v, TransportPortSince) then "transport.tcp.port" else "transport.port"
  }

  /** The `-E` settings, in the order the command lists them. */
  function CommandSettings(v: Version, cfg: LaunchConfig): seq<Setting>
  {
    [ Setting("http.port", IntToString(cfg.port)),
      Setting(TransportKey(v), IntToString(cfg.tcpPort)),
      Setting("path.logs", cfg.logsPath),
      Setting("path.data", cfg.worksPath),
      Setting("cluster.name", cfg.clusterName),
      Setting("network.host", "'" + cfg.networkPublishHost + "'"),
      Setting("index.store.type", cfg.indexStoreType),
      Setting("xpack.security.enabled", "false") ]
  }

  lemma SettingNamesPlain()
    ensures PlainKey("http.port") && PlainKey("transport.tcp.port") && PlainKey("transport.port")
    ensures PlainKey("path.logs") && PlainKey("path.data") && PlainKey("cluster.name")
    ensures PlainKey("network.host") && PlainKey("index.store.type") && PlainKey("xpack.security.enabled")
  {
  }

  /** No setting name contains '=', so Elasticsearch splits every setting
      where the command joined it. */
  lemma CommandKeysPlain(v: Version, cfg: LaunchConfig)
    ensures forall i :: 0 <= i < |CommandSettings(v, cfg)| ==> PlainKey(CommandSettings(v, cfg)[i].key)
  {
    SettingNamesPlain();
  }

  /** `_exec_command` once the version is known: the version gate and the
      dialect switch, then the command as a token sequence. */
  function BuildCommand(v: Version, cfg: LaunchConfig): Result<seq<string>, EsError>
  {
    if Less(v, MinimumVersion) then Err(NotSupported)
    else Ok([cfg.executable, "-p", cfg.pidfile] + Render(CommandSettings(v, cfg)))
  }

  /** The version gate rejects exactly the versions below 7.0.0; otherwise
      the command, as this model's token sequence (the launcher's own
      splitting of the source's string is not modelled), is
      `<executable> -p <pidfile>` followed by eight `-E` pairs from which
      Elasticsearch reads back exactly `CommandSettings`. */
  lemma BuildCommandSpec(v: Version, cfg: LaunchConfig)
    ensures var r := BuildCommand(v, cfg);
      && (r.Err? <==> Less(v, MinimumVersion))
      && (r.Err? ==> r.error == NotSupported)
      && (r.Ok? ==> |r.value| == 19 && r.value[..3] == [cfg.executable, "-p", cfg.pidfile])
      && (r.Ok? ==> SettingsOf(r.value) == Some(CommandSettings(v, cfg)))
  {
    if !Less(v, MinimumVersion) {
      var settings := CommandSettings(v, cfg);
      CommandKeysPlain(v, cfg);
      DecodeRender(settings);
      var command := [cfg.executable, "-p", cfg.pidfile] + Render(settings);
      assert command[3..] == Render(settings);
    }
  }

  /** The command never names a setting twice. */
  lemma CommandKeysDistinct(v: Version, cfg: LaunchConfig)
    ensures DistinctKeys(CommandSettings(v, cfg))
  {
  }

  /** The setting each name other than the inter-node port's carries in the
      command: the configured values, and security switched off. */
  lemma SettingsByName(v: Version, cfg: LaunchConfig)
    ensures var d := CommandSettings(v, cfg);
      && Lookup(d, "http.port") == Some(IntToString(cfg.port))
      && Lookup(d, "path.logs") == Some(cfg.logsPath)
      && Lookup(d, "path.data") == Some(cfg.worksPath)
      && Lookup(d, "cluster.name") == Some(cfg.clusterName)
      && Lookup(d, "network.host") == Some("'" + cfg.networkPublishHost + "'")
      && Lookup(d, "index.store.type") == Some(cfg.indexStoreType)
      && Lookup(d, "xpack.security.enabled") == Some("false")
  {
    var d := CommandSettings(v, cfg);
    CommandKeysDistinct(v, cfg);
    LookupDistinct(d, 0);
    LookupDistinct(d, 2);
    LookupDistinct(d, 3);
    LookupDistinct(d, 4);
    LookupDistinct(d, 5);
    LookupDistinct(d, 6);
    LookupDistinct(d, 7);
  }

  /** Only the second setting names an inter-node port. */
  lemma OneTransportSetting(v: Version, cfg: LaunchConfig)
    ensures var d := CommandSettings(v, cfg);
      forall j :: 0 <= j < |d| && j != 1 ==> d[j].key != "transport.tcp.port" && d[j].key != "transport.port"
  {
  }

  /** The dialect switch: the inter-node port is set under exactly one of
      its two names, `transport.tcp.port` for 7.x and `transport.port` from
      8.0.0 on (an unknown future major included). */
  lemma TransportDialect(v: Version, cfg: LaunchConfig)
    ensures var d := CommandSettings(v, cfg);
      && Lookup(d, "transport.tcp.port") == (if Less(v, TransportPortSince) then Some(IntToString(cfg.tcpPort)) else None)
      && Lookup(d, "transport.port") == (if Less(v, TransportPortSince) then None else Some(IntToString(cfg.tcpPort)))
  {
    var d := CommandSettings(v, cfg);
    CommandKeysDistinct(v, cfg);
    LookupDistinct(d, 1);
    OneTransportSetting(v, cfg);
    if Less(v, TransportPortSince) {
      assert d[1].key == "transport.tcp.port";
      assert forall j :: 0 <= j < |d| ==> d[j].key != "transport.port";
    } else {
      assert d[1].key == "transport.port";
      assert forall j :: 0 <= j < |d| ==> d[j].key != "transport.tcp.port";
    }
  }

  /** The settings come in the order http.port, the inter-node port,
      path.logs, path.data, cluster.name, network.host, index.store.type,
      xpack.security.enabled. */
  lemma CommandKeyOrder(v: Version, cfg: LaunchConfig)
    ensures Keys(CommandSettings(v, cfg)) == ["http.port", TransportKey(v), "path.logs", "path.data", "cluster.name",
                                              "network.host", "index.store.type", "xpack.security.enabled"]
  {
  }

  /** What constructing an executor yields: the command handed to the
      superclass, or the error `__init__` raises before any process exists. */
  function StartupCommand(cfg: LaunchConfig, probe: Probe): Result<seq<string>, EsError>
  {
    match ResolveVersion(VersionPattern, cfg.executable, probe)
    case Err(e) => Err(e)
    case Ok(v) => BuildCommand(v, cfg)
  }

  /** Construction succeeds exactly for a recognised banner whose version is
      at least 7.0.0; otherwise it fails with the error of the first check
      that rejects the executable. */
  lemma StartupOutcome(cfg: LaunchConfig, probe: Probe)
    ensures StartupCommand(cfg, probe).Ok? <==>
              probe.Output? && ParseBanner(VersionPattern, probe.text).Some?
              && !Less(ParseBanner(VersionPattern, probe.text).value, MinimumVersion)
    ensures probe.OsError? ==> StartupCommand(cfg, probe) == Err(NotElasticsearch(cfg.executable))
    ensures probe.Failed? ==> StartupCommand(cfg, probe) == Err(CalledProcessError(probe.returncode))
    ensures probe.Output? && ParseBanner(VersionPattern, probe.text).None? ==>
              StartupCommand(cfg, probe) == Err(NotRecognized(probe.text))
    ensures probe.Output? && ParseBanner(VersionPattern, probe.text).Some? && StartupCommand(cfg, probe).Err? ==>
              StartupCommand(cfg, probe) == Err(NotSupported)
  {
    ResolveVersionSpec(VersionPattern, cfg.executable, probe);
    if probe.Output? && ParseBanner(VersionPattern, probe.text).Some? {
      BuildCommandSpec(ParseBanner(VersionPattern, probe.text).value, cfg);
    }
  }

  /** A Python executor object. The launch parameters are fixed at
      construction; `cachedVersion` is the `_version` memo, filled by the
      first successful read of the version and never cleared. */
  class ElasticSearchExecutor {
    const executable: string
    const host: string
    const port: int
    const tcpPort: int
    const pidfile: string
    const logsPath: string
    const worksPath: string
    const clusterName: string
    const networkPublishHost: string
    const indexStoreType: string
    var cachedVersion: Option<Version>
    /** How many times the executable has been run to read its version. */
    ghost var probeRuns: nat
    /** What `__init__` hands to the superclass. */
    var command: seq<string>
    var url: string
    var timeout: int

    function Config(): LaunchConfig
    {
      LaunchConfig(executable, host, port, tcpPort, pidfile, logsPath, worksPath,
                   clusterName, networkPublishHost, indexStoreType)
    }

    /** The field assignments that open `__init__`: nothing is cached and
        nothing has been run yet. */
    constructor Init(cfg: LaunchConfig)
      ensures Config() == cfg
      ensures cachedVersion == None && probeRuns == 0
    {
      executable, host, port, tcpPort := cfg.executable, cfg.host, cfg.port, cfg.tcpPort;
      pidfile, logsPath, worksPath := cfg.pidfile, cfg.logsPath, cfg.worksPath;
      clusterName, networkPublishHost, indexStoreType := cfg.clusterName, cfg.networkPublishHost, cfg.indexStoreType;
      cachedVersion := None;
      probeRuns := 0;
      command, url, timeout := [], "", 0;
    }

    /** The `version` property. A cached version is returned without running
        the executable; otherwise `probe` is what running it yields, and a
        successful parse is cached while a failure leaves the cache empty so
        that the next read runs the executable again. */
    method ReadVersion(probe: Probe) returns (r: Result<Version, EsError>)
      modifies this`cachedVersion, this`probeRuns
      ensures old(cachedVersion).Some? ==> r == Ok(old(cachedVersion).value) && probeRuns == old(probeRuns)
      ensures old(cachedVersion).None? ==>
        r == ResolveVersion(VersionPattern, executable, probe) && probeRuns == old(probeRuns) + 1
      ensures cachedVersion == if r.Ok? then Some(r.value) else None
    {
      if cachedVersion.None? {
        probeRuns := probeRuns + 1;
        var resolved := ResolveVersion(VersionPattern, executable, probe);
        if resolved.Err? {
          return resolved;
        }
        cachedVersion := Some(resolved.value);
      }
      r := Ok(cachedVersion.value);
    }

    /** `_exec_command`: read the version (the property's second read in the
        source's elif hits the cache), then gate and format. */
    method ExecCommand(probe: Probe) returns (r: Result<seq<string>, EsError>)
      modifies this`cachedVersion, this`probeRuns
      ensures old(cachedVersion).Some? ==> r == BuildCommand(old(cachedVersion).value, Config())
      ensures old(cachedVersion).None? ==> r == StartupCommand(Config(), probe)
      ensures old(cachedVersion).Some? ==> cachedVersion == old(cachedVersion)
      ensures old(cachedVersion).None? ==>
        var resolved := ResolveVersion(VersionPattern, executable, probe);
        cachedVersion == if resolved.Ok? then Some(resolved.value) else None
      ensures probeRuns == if old(cachedVersion).Some? then old(probeRuns) else old(probeRuns) + 1
      ensures r.Ok? ==> cachedVersion.Some?
    {
      var v := ReadVersion(probe);
      if v.Err? {
        return Err(v.error);
      }
      r := BuildCommand(v.value, Config());
    }

    /** `ElasticSearchExecutor(...)`: the fields are set, then the rest of
        `__init__` builds the command (reading the version) and hands it to
        the superclass. Version and support errors come out of
        construction, before any process exists. */
    static method Create(cfg: LaunchConfig, timeout: int, probe: Probe) returns (r: Result<ElasticSearchExecutor, EsError>)
      ensures r.Err? ==> StartupCommand(cfg, probe) == Err(r.error)
      ensures r.Ok? ==> StartupCommand(cfg, probe) == Ok(r.value.command)
      ensures r.Ok? ==> fresh(r.value) && r.value.Config() == cfg
      ensures r.Ok? ==> r.value.url == ReadinessUrl(cfg.host, cfg.port) && r.value.timeout == timeout
      ensures r.Ok? ==> r.value.probeRuns == 1
      ensures r.Ok? ==> var resolved := ResolveVersion(VersionPattern, cfg.executable, probe);
        resolved.Ok? && r.value.cachedVersion == Some(resolved.value)
    {
      var e := new ElasticSearchExecutor.Init(cfg);
      var done := e.InitSuper(timeout, probe);
      if done.Err? {
        return Err(done.error);
      }
      r := Ok(e);
    }

    /** The call that closes `__init__`: `super().__init__(self._exec_command(),
        "http://<host>:<port>", timeout=timeout)` on an object whose version
        has not been read yet. */
    method InitSuper(timeout: int, probe: Probe) returns (r: Result<(), EsError>)
      requires cachedVersion.None?
      modifies this
      ensures r.Err? ==> StartupCommand(Config(), probe) == Err(r.error)
      ensures r.Ok? ==> StartupCommand(Config(), probe) == Ok(command)
      ensures r.Ok? ==> url == ReadinessUrl(host, port) && this.timeout == timeout
      ensures probeRuns == old(probeRuns) + 1
      ensures var resolved := ResolveVersion(VersionPattern, executable, probe);
        cachedVersion == if resolved.Ok? then Some(resolved.value) else None
    {
      var c := ExecCommand(probe);
      if c.Err? {
        return Err(c.error);
      }
      command, url, this.timeout := c.value, ReadinessUrl(host, port), timeout;
      r := Ok(());
    }
  }

  /** Construct an executor, then read its `version` property, whatever
      running the executable would yield the second time (`later`): the
      version read is the one parsed from the banner during construction,
      and construction fails exactly when that banner has no version or one
      below 7.0.0. */
  method VersionAfterConstruction(cfg: LaunchConfig, timeout: int, probe: Probe, later: Probe)
    returns (r: Result<Version, EsError>)
    ensures r.Ok? <==> StartupCommand(cfg, probe).Ok?
    ensures r.Ok? ==> probe.Output? && r.value == ParseBanner(VersionPattern, probe.text).value
    ensures r.Err? ==> StartupCommand(cfg, probe) == Err(r.error)
  {
    StartupOutcome(cfg, probe);
    var e := ElasticSearchExecutor.Create(cfg, timeout, probe);
    if e.Err? {
      return Err(e.error);
    }
    r := e.value.ReadVersion(later);
  }

  /** A banner whose only tag reads `Version: 10.0.0` has no match: the major
      group takes one digit and the next character must be '.'. */
  lemma TwoDigitMajorNotRecognized()
    ensures ParseBanner(VersionPattern, "Version: 10.0.0").None?
  {
    var s := "Version: 10.0.0";
    assert MatchAt(VersionPattern, s, 0).None? by {
      assert s[|Tag| + 1] == '0';
    }
    forall j | 0 < j <= |s| ensures !TagAt(s, j) {
      if j + |Tag| <= |s| {
        assert s[j..j + |Tag|][0] == s[j] != 'V';
      }
    }
    NoMatchNoVersion(VersionPattern, s);
  }

  lemma ShowExamples()
    ensures Show(Version(8, 0, 0)) == "8.0.0"
    ensures Show(Version(7, 12, 1)) == "7.12.1"
    ensures Show(Version(7, 10, 0)) == "7.10.0"
  {
    assert NatToString(12) == "12";
    assert NatToString(10) == "10";
  }

  /** Banners of the package's tests, reduced to their shape: the version
      line alone (8.0.0, and 7.12.1 with a two-digit minor), and the version
      line after the JVM's warning line (7.10.0). */
  lemma BannerVersionLine()
    ensures ParseBanner(VersionPattern, "Version: " + "8.0.0" + ", Build: default/tar") == Some(Version(8, 0, 0))
    ensures ParseBanner(VersionPattern, "Version: " + "7.12.1" + ", Build: default/deb") == Some(Version(7, 12, 1))
  {
    ShowExamples();
    ParseRendered(VersionPattern, "", Version(8, 0, 0), ", Build: default/tar");
    ParseRendered(VersionPattern, "", Version(7, 12, 1), ", Build: default/deb");
    assert "" + Tag == "Version: ";
  }

  lemma BannerAfterWarning()
    ensures ParseBanner(VersionPattern, "OpenJDK 64-Bit Server " + "VM" + " warning: Option was deprecated.\n"
                                        + "Version: " + "7.10.0" + ", Build: default/tar") == Some(Version(7, 10, 0))
  {
    ShowExamples();
    var a, b := "OpenJDK 64-Bit Server ", " warning: Option was deprecated.\n";
    NoTagAroundVM(a, b);
    ParseRendered(VersionPattern, a + "VM" + b, Version(7, 10, 0), ", Build: default/tar");
  }
}
