/** What both executor copies share: the outcome of running the executable
    with `-Vv`, the errors the executors raise, the launch parameters, and
    the `-E key=value` settings of an Elasticsearch command line together
    with the reading Elasticsearch gives them. */
module Launch {
  import opened Wrappers
  import opened Text
  import opened Decimal
  import opened Versions
  import opened Banner

  /** What `check_output([executable, "-Vv"])` produced: the decoded standard
      output, an `OSError` (the executable could not be run), or a non-zero
      exit status (`CalledProcessError`). */
  datatype Probe = Output(text: string) | OsError | Failed(returncode: int)

  datatype EsError =
    | NotRecognized(output: string)       // RuntimeError: banner without a version
    | NotElasticsearch(executable: string) // RuntimeError: the OSError case
    | NotSupported                         // RuntimeError: version below the floor
    | CalledProcessError(returncode: int)  // propagated unchanged from check_output

  /** The text of the `RuntimeError` raised (a `CalledProcessError` carries
      the message of the subprocess library instead). The fixed refusal
      belongs to the version gate alone; the other two open with their own
      lead. */
  function Message(e: EsError): (msg: string)
    requires !e.CalledProcessError?
    ensures e.NotSupported? <==> msg == NotSupportedMessage
    ensures e.NotRecognized? ==> StartsWith(msg, NotRecognizedLead) && msg[0] == 'E'
    ensures e.NotElasticsearch? ==> StartsWith(msg, "'")
  {
    match e
    case NotRecognized(output) =>
      assert NotRecognizedMessage(output)[0] == NotRecognizedLead[0] == 'E';
      NotRecognizedMessage(output)
    case NotElasticsearch(executable) =>
      assert NotElasticsearchMessage(executable)[0] == '\'';
      NotElasticsearchMessage(executable)
    case NotSupported => NotSupportedMessage
  }

  const NotSupportedMessage := "This elasticsearch version is not supported."

  /** The message identifies the error: different errors never share a
      message, so the quoted output or executable can be read back. */
  lemma MessageIdentifiesError(e1: EsError, e2: EsError)
    requires !e1.CalledProcessError? && !e2.CalledProcessError?
    requires Message(e1) == Message(e2)
    ensures e1 == e2
  {
    var m := Message(e1);
    if e1.NotRecognized? && e2.NotRecognized? {
      AppendParts(NotRecognizedLead, e1.output);
      AppendParts(NotRecognizedLead, e2.output);
    } else if e1.NotElasticsearch? && e2.NotElasticsearch? {
      var tail := " does not point to elasticsearch.";
      assert m == "'" + e1.executable + "'" + tail;
      assert m == "'" + e2.executable + "'" + tail;
      assert e1.executable == m[1..|m| - |tail| - 1];
      assert e2.executable == m[1..|m| - |tail| - 1];
    }
  }

  /** The unrecognised banner is quoted in full at the end of the message. */
  function NotRecognizedMessage(output: string): (msg: string)
    ensures |output| <= |msg| && msg[|msg| - |output|..] == output
  {
    AppendParts(NotRecognizedLead, output);
    NotRecognizedLead + output
  }

  const NotRecognizedLead := "Elasticsearch version is not recognized. " + "It is probably not supported. \n" + "Output is: "

  /** The message opens with the executable's path in single quotes. */
  function NotElasticsearchMessage(executable: string): (msg: string)
    ensures StartsWith(msg, "'" + executable + "'")
  {
    var quoted := "'" + executable + "'";
    AppendParts(quoted, " does not point to elasticsearch.");
    quoted + " does not point to elasticsearch."
  }

  /** The `version` property's work when nothing is cached: run the probe,
      scan its output, or turn the failure into the executor's error. */
  function ResolveVersion(p: Pattern, executable: string, probe: Probe): Result<Version, EsError>
  {
    match probe
    case OsError => Err(NotElasticsearch(executable))
    case Failed(code) => Err(CalledProcessError(code))
    case Output(text) =>
      match ParseBanner(p, text)
      case None => Err(NotRecognized(text))
      case Some(v) => Ok(v)
  }

  /** A version comes out exactly when the executable ran and its banner
      matched; each failure becomes the error the property raises. */
  lemma ResolveVersionSpec(p: Pattern, executable: string, probe: Probe)
    ensures var r := ResolveVersion(p, executable, probe);
      && (r.Ok? <==> probe.Output? && ParseBanner(p, probe.text).Some?)
      && (r.Ok? ==> r.value == ParseBanner(p, probe.text).value)
      && (probe.Output? && r.Err? ==> r.error == NotRecognized(probe.text))
      && (probe.OsError? ==> r == Err(NotElasticsearch(executable)))
      && (probe.Failed? ==> r == Err(CalledProcessError(probe.returncode)))
  {
  }

  /** The constructor's parameters that enter the command line. Paths are
      their string form. */
  datatype LaunchConfig = LaunchConfig(
    executable: string,
    host: string,
    port: int,
    tcpPort: int,
    pidfile: string,
    logsPath: string,
    worksPath: string,
    clusterName: string,
    networkPublishHost: string,
    indexStoreType: string)

  /** `http://<host>:<port>`, the address the readiness check polls. */
  function ReadinessUrl(host: string, port: int): string
  {
    "http://" + host + ":" + IntToString(port)
  }

  /** The address names the host, and the port reads back after the colon. */
  lemma ReadinessUrlSpec(host: string, port: int)
    ensures var url, prefix := ReadinessUrl(host, port), "http://" + host + ":";
      StartsWith(url, prefix) && ParseInt(url[|prefix|..]) == Some(port)
  {
    var prefix := "http://" + host + ":";
    var url := ReadinessUrl(host, port);
    assert url[|prefix|..] == IntToString(port);
    assert url[..|prefix|] == prefix;
    IntToStringParses(port);
  }

  /** One `-E key=value` setting. */
  datatype Setting = Setting(key: string, value: string)

  predicate PlainKey(key: string) { |key| > 0 && '=' !in key }

  /** The tokens `-E key=value` for each setting, in order. */
  function Render(settings: seq<Setting>): (tokens: seq<string>)
    ensures |tokens| == 2 * |settings|
  {
    if |settings| == 0 then []
    else ["-E", Assignment(settings[0])] + Render(settings[1..])
  }

  /** The `key=value` text of one setting. */
  function Assignment(s: Setting): string
  {
    s.key + "=" + s.value
  }

  /** How Elasticsearch reads one `key=value`: the key ends at the first '='. */
  function SplitSetting(token: string): Option<Setting>
  {
    var k := IndexOf(token, '=');
    if k == |token| then None else Some(Setting(token[..k], token[k + 1..]))
  }

  /** A rendered `key=value` splits back into its setting when the key has no '='. */
  lemma SplitRendered(s: Setting)
    requires PlainKey(s.key)
    ensures SplitSetting(Assignment(s)) == Some(s)
  {
    IndexOfAfter(s.key, '=', s.value);
    var token := s.key + "=" + s.value;
    assert token == s.key + ['='] + s.value;
    assert token[..|s.key|] == s.key && token[|s.key| + 1..] == s.value;
  }

  /** How Elasticsearch reads a run of `-E key=value` pairs. */
  function Decode(tokens: seq<string>): Option<seq<Setting>>
    decreases |tokens|
  {
    if |tokens| == 0 then Some([])
    else if |tokens| < 2 || tokens[0] != "-E" then None
    else
      match SplitSetting(tokens[1])
      case None => None
      case Some(s) =>
        match Decode(tokens[2..])
        case None => None
        case Some(rest) => Some([s] + rest)
  }

  /** Elasticsearch reads back exactly the rendered settings, values with
      '=' in them included, as long as no key contains '='. */
  lemma {:induction false} DecodeRender(settings: seq<Setting>)
    requires forall i :: 0 <= i < |settings| ==> PlainKey(settings[i].key)
    ensures Decode(Render(settings)) == Some(settings)
    decreases |settings|
  {
    if |settings| > 0 {
      var s := settings[0];
      SplitRendered(s);
      DecodeRender(settings[1..]);
      assert Render(settings)[2..] == Render(settings[1..]);
      assert settings == [s] + settings[1..];
    }
  }

  /** The value of the first setting named `key`. */
  function Lookup(settings: seq<Setting>, key: string): (r: Option<string>)
    ensures r.Some? <==> exists i :: 0 <= i < |settings| && settings[i].key == key
    ensures r.Some? ==> exists i :: 0 <= i < |settings| && settings[i] == Setting(key, r.value)
  {
    if |settings| == 0 then None
    else if settings[0].key == key then Some(settings[0].value)
    else
      var r := Lookup(settings[1..], key);
      assert forall i :: 0 < i < |settings| ==> settings[i] == settings[1..][i - 1];
      r
  }

  /** No two settings share a name. */
  predicate DistinctKeys(settings: seq<Setting>)
  {
    forall i, j :: 0 <= i < j < |settings| ==> settings[i].key != settings[j].key
  }

  /** When names are distinct, each setting is found under its own name. */
  lemma LookupDistinct(settings: seq<Setting>, i: nat)
    requires i < |settings| && DistinctKeys(settings)
    ensures Lookup(settings, settings[i].key) == Some(settings[i].value)
  {
    var r := Lookup(settings, settings[i].key);
    assert settings[i].key == settings[i].key;
    var k :| 0 <= k < |settings| && settings[k] == Setting(settings[i].key, r.value);
    assert k == i;
  }

  function Keys(settings: seq<Setting>): (keys: seq<string>)
    ensures |keys| == |settings|
    ensures forall i :: 0 <= i < |settings| ==> keys[i] == settings[i].key
  {
    if |settings| == 0 then [] else [settings[0].key] + Keys(settings[1..])
  }

  /** The `-E` settings of a launch command `<executable> -p <pidfile> -E ...`,
      as Elasticsearch reads them; None when the command has another shape. */
  function SettingsOf(command: seq<string>): Option<seq<Setting>>
  {
    if |command| < 3 || command[1] != "-p" then None else Decode(command[3..])
  }

  /** Stand-in for an Elasticsearch started elsewhere: it only records where
      that server is and claims it is running. */
  class NoopElasticsearch {
    const host: string
    const port: int

    constructor (host: string, port: int)
      ensures this.host == host && this.port == port
    {
      this.host := host;
      this.port := port;
    }

    static function Running(): (running: bool)
      ensures running
    {
      true
    }
  }
}
