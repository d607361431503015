/** The registry of running intake servers, one per canonical listen URI. */
module ListenerRegistry {
  import opened Prelude
  import opened ListenUri
  import Text

  datatype Config = Config(
    schemaName: string,
    tableName: string,
    metricsTableName: string,
    apiKey: string,
    allowOtherHostname: bool,
    createTable: bool,
    maxBodyBytes: nat,
    httpThreads: nat)

  /** The options that `Start` compares with those of a running server. */
  predicate SameOptions(current: Config, config: Config) {
    && current.schemaName == config.schemaName
    && current.tableName == config.tableName
    && current.apiKey == config.apiKey
    && current.allowOtherHostname == config.allowOtherHostname
    && current.createTable == config.createTable
    && current.maxBodyBytes == config.maxBodyBytes
    && current.httpThreads == config.httpThreads
  }

  predicate IsLocal(uri: Listener) {
    Text.Lower(uri.host) == "localhost" || uri.host == "127.0.0.1" || uri.host == "::1"
  }

  /** The checks of the server's constructor. */
  predicate Startable(uri: Listener, config: Config) {
    && (config.allowOtherHostname || IsLocal(uri))
    && config.schemaName != "" && config.tableName != ""
    && config.maxBodyBytes > 0 && config.httpThreads > 0
  }

  function IntakeUrl(uri: Listener): string {
    "http://" + HostText(uri) + ":" + Text.Decimal(uri.port) + "/api/v2/logs"
  }

  class DatadogServer {
    const uri: Listener
    const config: Config
    var listening: bool

    constructor (uri: Listener, config: Config)
      ensures this.uri == uri && this.config == config && listening
    {
      this.uri := uri;
      this.config := config;
      listening := true;
    }

    method Close()
      modifies this
      ensures !listening
    {
      listening := false;
    }
  }

  datatype StartError = DifferentOptions | Refused | NotBound

  datatype StartDecision = Reuse | Create | Refuse(error: StartError)

  /** What `Start` decides, given the options of the server registered under the key, if there is one. */
  function Decide(current: Option<Config>, uri: Listener, config: Config, binds: bool): StartDecision {
    if current.Some? then (if SameOptions(current.value, config) then Reuse else Refuse(DifferentOptions))
    else if !Startable(uri, config) then Refuse(Refused)
    else if !binds then Refuse(NotBound)
    else Create
  }

  class DatadogServerExtensionInfo {
    var servers: map<string, DatadogServer>

    /** A server is registered under its own key and listens. */
    ghost predicate Valid()
      reads this, servers.Values
    {
      forall key :: key in servers ==> Canonical(servers[key].uri) == key && servers[key].listening
    }

    constructor ()
      ensures servers == map[] && Valid()
    {
      servers := map[];
    }

    /** `binds` tells whether the target table and the port can be had. */
    method Start(uri: Listener, config: Config, binds: bool) returns (r: Result<string, StartError>)
      requires Valid()
      modifies this
      ensures Valid()
      ensures var key := Canonical(uri);
              var current := if key in old(servers) then Some(old(servers)[key].config) else None;
              match Decide(current, uri, config, binds)
              case Reuse => servers == old(servers) && r == Ok(IntakeUrl(old(servers)[key].uri))
              case Refuse(error) => servers == old(servers) && r == Err(error)
              case Create =>
                && r == Ok(IntakeUrl(uri)) && key in servers && fresh(servers[key])
                && servers == old(servers)[key := servers[key]]
                && servers[key].config == config && servers[key].uri == uri
    {
      var key := Canonical(uri);
      if key in servers {
        var current := servers[key].config;
        if !SameOptions(current, config) {
          return Err(DifferentOptions);
        }
        return Ok(IntakeUrl(servers[key].uri));
      }
      if !config.allowOtherHostname && !IsLocal(uri) {
        return Err(Refused);
      }
      if config.schemaName == "" || config.tableName == "" {
        return Err(Refused);
      }
      if config.maxBodyBytes == 0 || config.httpThreads == 0 {
        return Err(Refused);
      }
      if !binds {
        return Err(NotBound);
      }
      var server := new DatadogServer(uri, config);
      servers := servers[key := server];
      r := Ok(IntakeUrl(uri));
    }

    /** The server under the key is removed and closed; all others keep listening. */
    method Stop(uri: Listener) returns (stopped: bool)
      requires Valid()
      modifies this, servers.Values
      ensures Valid()
      ensures stopped <==> Canonical(uri) in old(servers)
      ensures servers == old(servers) - {Canonical(uri)}
      ensures stopped ==> !old(servers)[Canonical(uri)].listening
    {
      var key := Canonical(uri);
      if key !in servers {
        return false;
      }
      var server := servers[key];
      servers := servers - {key};
      server.Close();
      stopped := true;
    }

    method StopAll()
      requires Valid()
      modifies this, servers.Values
      ensures servers == map[] && Valid()
      ensures forall key :: key in old(servers) ==> !old(servers)[key].listening
    {
      var active := servers;
      servers := map[];
      var left := active.Keys;
      while left != {}
        invariant servers == map[] && left <= active.Keys
        invariant forall key :: key in active && key !in left ==> !active[key].listening
        decreases left
      {
        var key :| key in left;
        active[key].Close();
        left := left - {key};
      }
    }
  }
}
