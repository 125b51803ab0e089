/**
 * Lifecycle managers for process-wide API clients (alfajor/apiclients/managers.py).
 * The dotted-path resolver and the WSGI client's constructor live outside this
 * model; `WSGIManager.Create` takes them as parameters and claims nothing about them.
 */
module Managers {
  import opened Wrappers
  import ZeroClient

  /** A backend configuration mapping. */
  type Config = map<string, string>

  const EntryPointKey: string := "server-entry-point"
  const BaseUrlKey: string := "base_url"

  /** Why `create` raised: a missing required key, or an entry point the resolver rejected. */
  datatype ConfigError = MissingKey(key: string) | UnresolvedEntryPoint(path: string)

  /** `config.get('base_url')`: the configured base URL, or None when the key is absent. */
  function BaseUrl(config: Config): (u: Option<string>)
    ensures u.Some? <==> BaseUrlKey in config
    ensures u.Some? ==> u.value == config[BaseUrlKey]
  {
    if BaseUrlKey in config then Some(config[BaseUrlKey]) else None
  }

  /** Lifecycle manager for WSGI API clients; it keeps the backend configuration. */
  datatype WSGIManager = WSGIManager(config: Config) {

    /**
     * Builds a client from the app that `resolve` finds at the configured entry
     * point and from the configured base URL. `resolve` answers None where the
     * resolver would raise.
     */
    function Create<App, Client>(resolve: string -> Option<App>,
                                 construct: (App, Option<string>) -> Client): (r: Result<Client, ConfigError>)
      ensures EntryPointKey !in config ==> r == Failure(MissingKey(EntryPointKey))
      ensures EntryPointKey in config && resolve(config[EntryPointKey]).None? ==>
                r == Failure(UnresolvedEntryPoint(config[EntryPointKey]))
      ensures r.Success? <==> EntryPointKey in config && resolve(config[EntryPointKey]).Some?
      ensures r.Success? ==> r.value == construct(resolve(config[EntryPointKey]).value, BaseUrl(config))
    {
      if EntryPointKey !in config then Failure(MissingKey(EntryPointKey))
      else
        var entryPoint := config[EntryPointKey];
        match resolve(entryPoint)
        case None => Failure(UnresolvedEntryPoint(entryPoint))
        case Some(app) => Success(construct(app, BaseUrl(config)))
    }

    /** Tears down the client: only logs, so the manager is left as it was. */
    function Destroy(): (after: WSGIManager)
      ensures after.config == config
    {
      this
    }
  }

  /** `WSGIManager(frontend_name, backend_config, runner_options)`: keeps only the configuration. */
  function NewWSGIManager(frontendName: string, backendConfig: Config,
                          runnerOptions: map<string, string>): (m: WSGIManager)
    ensures m.config == backendConfig
  {
    WSGIManager(backendConfig)
  }

  /** Lifecycle manager for Zero API clients; it keeps nothing. */
  datatype ZeroManager = ZeroManager() {

    /** Returns a new Zero client. */
    method Create() returns (client: ZeroClient.Zero)
      ensures fresh(client)
      ensures client.capabilities == [] && client.httpVersion == "HTTP/1.0"
    {
      client := new ZeroClient.Zero();
    }

    /** Tears down the client: only logs, so the manager is left as it was. */
    function Destroy(): (after: ZeroManager)
      ensures after == this
    {
      this
    }
  }

  /** `ZeroManager(frontend_name, backend_config, runner_options)`: ignores all three. */
  function NewZeroManager(frontendName: string, backendConfig: Config,
                          runnerOptions: map<string, string>): (m: ZeroManager)
    ensures m == ZeroManager()
  {
    ZeroManager()
  }

  // ---- Properties of create and destroy ----

  /** A missing entry point fails before the resolver or the client constructor is consulted. */
  lemma MissingEntryPointConsultsNothing<App, Client>(
      m: WSGIManager,
      resolve1: string -> Option<App>, construct1: (App, Option<string>) -> Client,
      resolve2: string -> Option<App>, construct2: (App, Option<string>) -> Client)
    requires EntryPointKey !in m.config
    ensures m.Create(resolve1, construct1) == m.Create(resolve2, construct2)
    ensures m.Create(resolve1, construct1) == Failure(MissingKey(EntryPointKey))
  {
  }

  /** `create` looks only at the entry-point and base-URL keys of the configuration. */
  lemma CreateReadsOnlyTwoKeys<App, Client>(
      c1: Config, c2: Config,
      resolve: string -> Option<App>, construct: (App, Option<string>) -> Client)
    requires (EntryPointKey in c1) == (EntryPointKey in c2)
    requires EntryPointKey in c1 ==> c1[EntryPointKey] == c2[EntryPointKey]
    requires BaseUrl(c1) == BaseUrl(c2)
    ensures WSGIManager(c1).Create(resolve, construct) == WSGIManager(c2).Create(resolve, construct)
  {
  }

  /** A missing base URL is not an error: it only changes the client's base URL to None. */
  lemma BaseUrlIsOptional<App, Client>(
      config: Config, resolve: string -> Option<App>, construct: (App, Option<string>) -> Client)
    ensures var without := WSGIManager(config - {BaseUrlKey}).Create(resolve, construct);
            var with := WSGIManager(config).Create(resolve, construct);
            && without.Success? == with.Success?
            && (without.Success? ==>
                  without.value == construct(resolve(config[EntryPointKey]).value, None))
  {
    assert EntryPointKey != BaseUrlKey;
  }

  /** Destroying a WSGI manager, any number of times, does not change what `create` builds. */
  lemma DestroyKeepsCreate<App, Client>(
      m: WSGIManager, resolve: string -> Option<App>, construct: (App, Option<string>) -> Client)
    ensures m.Destroy().Create(resolve, construct) == m.Create(resolve, construct)
    ensures m.Destroy().Destroy() == m
  {
  }

  /** Every ZeroManager is the same, whatever it was constructed from. */
  lemma ZeroManagerIgnoresArguments(
      n1: string, c1: Config, o1: map<string, string>,
      n2: string, c2: Config, o2: map<string, string>)
    ensures NewZeroManager(n1, c1, o1) == NewZeroManager(n2, c2, o2)
  {
  }
}
