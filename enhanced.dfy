/** `pluggable_base/pluggable_with_dependencies.py`: `EnhancedBot`, a PluggableBot that fills
    in default options, registers a fixed set of services, and discovers more services in
    a directory of `<name>_service.py` files. The PluggableBot it extends is held as `bot`.

    The file system is an input: the listing of each existing directory, and for each
    file that can be executed as a module, the classes it defines. */
module Enhanced {

  import opened Wrappers
  import opened Text
  import opened Chat
  import opened Services
  import opened Pluggable

  /** `os.path.join(a, b)` for a relative `b`. */
  function JoinPath(a: string, b: string): string {
    if a == "" then b else if EndsWith(a, "/") then a + b else a + "/" + b
  }

  lemma JoinPathEnds(a: string, b: string)
    ensures StartsWith(JoinPath(a, b), a) && EndsWith(JoinPath(a, b), b)
  {
  }

  /** The defaults `__init__` fills in, below the application's base path. */
  function DefaultOptions(basePath: string): (r: map<string, string>)
    ensures r.Keys == {"plugins_path", "services_path", "config_path"}
    ensures forall k :: k in r ==> StartsWith(r[k], basePath)
    ensures EndsWith(r["plugins_path"], "plugins") && EndsWith(r["services_path"], "services")
            && EndsWith(r["config_path"], "config")
  {
    JoinPathEnds(basePath, "plugins");
    JoinPathEnds(basePath, "services");
    JoinPathEnds(basePath, "config");
    map["plugins_path" := JoinPath(basePath, "plugins"),
        "services_path" := JoinPath(basePath, "services"),
        "config_path" := JoinPath(basePath, "config")]
  }

  /** The merged options: the caller's value for every key it gave, the default for every
      other default key. */
  function Merged(options: map<string, string>, defaults: map<string, string>): (r: map<string, string>)
    ensures r.Keys == options.Keys + defaults.Keys
    ensures forall k :: k in options ==> r[k] == options[k]
    ensures forall k :: k in defaults && k !in options ==> r[k] == defaults[k]
  {
    map k | k in options.Keys + defaults.Keys :: if k in options then options[k] else defaults[k]
  }

  /** Merging the defaults in a second time changes nothing. */
  lemma MergeIdempotent(options: map<string, string>, defaults: map<string, string>)
    ensures Merged(Merged(options, defaults), defaults) == Merged(options, defaults)
  {
    var once := Merged(options, defaults);
    var twice := Merged(once, defaults);
    assert twice.Keys == once.Keys;
    assert forall k :: k in once ==> twice[k] == once[k];
  }

  /** The merge loop of `__init__`: each default key the options lack is added; empty
      options (falsy, like `None`) are replaced by the defaults. */
  method MergeOptions(options: map<string, string>, defaults: map<string, string>) returns (merged: map<string, string>)
    ensures merged == Merged(options, defaults)
  {
    if |options| == 0 {
      return defaults;
    }
    merged := options;
    var todo := defaults.Keys;
    while todo != {}
      invariant todo <= defaults.Keys
      invariant merged.Keys == options.Keys + (defaults.Keys - todo)
      invariant forall k :: k in options ==> merged[k] == options[k]
      invariant forall k :: k in defaults && k !in todo && k !in options ==> merged[k] == defaults[k]
      decreases |todo|
    {
      var k :| k in todo;
      if k !in merged {
        merged := merged[k := defaults[k]];
      }
      todo := todo - {k};
    }
  }

  /** The second argument of `register_service`: a class, or an object (with or without
      `set_socket_io`). */
  datatype ServiceArg = ServiceClass(className: string) | ServiceInstance(value: ServiceValue, hasSetSocketIo: bool)

  /** What `register_service` stores: a class is instantiated with the bot's client; an
      object is stored as it is, handed the client first if it takes one. */
  function Registered(arg: ServiceArg, sio: Transport): (r: ServiceValue)
    ensures arg.ServiceClass? ==> r == ServiceValue(arg.className, Some(sio))
    ensures arg.ServiceInstance? ==> r.className == arg.value.className
    ensures arg.ServiceInstance? ==> r.socket == if arg.hasSetSocketIo then Some(sio) else arg.value.socket
  {
    match arg
    case ServiceClass(c) => ServiceValue(c, Some(sio))
    case ServiceInstance(v, hasSet) => if hasSet then v.(socket := Some(sio)) else v
  }

  const ServiceSuffix: string := "_service.py"

  /** `filename[:-11]`: the file name without `_service.py`. */
  function ServiceNameOf(filename: string): (r: string)
    requires EndsWith(filename, ServiceSuffix)
    // the file name with its suffix cut off
    ensures |r| == |filename| - |ServiceSuffix| && forall i :: 0 <= i < |r| ==> r[i] == filename[i]
  {
    filename[..|filename| - |ServiceSuffix|]
  }

  /** `<name>_service.py` is picked up, and gives back `name`. */
  lemma ServiceNameRoundTrip(name: string)
    ensures EndsWith(name + ServiceSuffix, ServiceSuffix)
    ensures ServiceNameOf(name + ServiceSuffix) == name
  {
    var f := name + ServiceSuffix;
    assert f[|f| - 11..] == ServiceSuffix;
    assert f[..|f| - 11] == name;
  }

  /** The class a service file must define: `service_name.capitalize() + "Service"`. */
  function ServiceClassName(serviceName: string): (r: string)
    ensures |r| == |serviceName| + 7 && EndsWith(r, "Service")
  {
    Capitalize(serviceName) + "Service"
  }

  /** A lower-case service name expects the class spelled with its first letter in upper
      case, the rest as it is, and `Service` after it (`weather` expects `WeatherService`). */
  lemma ServiceClassNameOfLower(name: string)
    requires name != "" && forall i :: 0 <= i < |name| ==> 'a' <= name[i] <= 'z'
    ensures ServiceClassName(name) == [UpperChar(name[0])] + name[1..] + "Service"
    ensures 'A' <= ServiceClassName(name)[0] <= 'Z'
  {
    LowerLiteral(name[1..]);
  }

  /** The directories that exist, with their listings, and the classes each executable
      module file defines, by path. */
  datatype FileSystem = FileSystem(listings: map<string, seq<string>>, classes: map<string, set<string>>)

  /** A listed file that is a service file whose module runs and defines its class. */
  predicate Provides(fs: FileSystem, dir: string, filename: string) {
    EndsWith(filename, ServiceSuffix)
    && JoinPath(dir, filename) in fs.classes
    && ServiceClassName(ServiceNameOf(filename)) in fs.classes[JoinPath(dir, filename)]
  }

  /** How many of `files` provide a service. */
  function CountProviders(fs: FileSystem, dir: string, files: seq<string>): (r: nat)
    ensures r <= |files|
  {
    if |files| == 0 then 0
    else CountProviders(fs, dir, files[..|files| - 1]) + (if Provides(fs, dir, files[|files| - 1]) then 1 else 0)
  }

  /** The service names `files` provide. */
  function DiscoveredNames(fs: FileSystem, dir: string, files: seq<string>): set<string> {
    set f | f in files && Provides(fs, dir, f) :: ServiceNameOf(f)
  }

  /** The registry after registering each discovered name with its class. */
  function WithDiscovered(services: map<string, ServiceValue>, names: set<string>, sio: Transport)
    : (r: map<string, ServiceValue>)
    ensures r.Keys == services.Keys + names
    ensures forall k :: k in names ==> r[k] == ServiceValue(ServiceClassName(k), Some(sio))
    ensures forall k :: k in services && k !in names ==> r[k] == services[k]
  {
    map k | k in services.Keys + names :: if k in names then ServiceValue(ServiceClassName(k), Some(sio)) else services[k]
  }

  /** Discovering the same directory again changes nothing, so its key set does not grow. */
  lemma RediscoverIdempotent(services: map<string, ServiceValue>, names: set<string>, sio: Transport)
    ensures WithDiscovered(WithDiscovered(services, names, sio), names, sio) == WithDiscovered(services, names, sio)
  {
    var once := WithDiscovered(services, names, sio);
    var twice := WithDiscovered(once, names, sio);
    assert twice.Keys == once.Keys;
    assert forall k :: k in once ==> twice[k] == once[k];
  }

  /** The count over one more file grows by one exactly when that file provides a service. */
  lemma CountStep(fs: FileSystem, dir: string, files: seq<string>, i: nat)
    requires i < |files|
    ensures CountProviders(fs, dir, files[..i + 1])
            == CountProviders(fs, dir, files[..i]) + (if Provides(fs, dir, files[i]) then 1 else 0)
  {
    assert files[..i + 1][..i] == files[..i];
  }

  /** The names found in one more file: those found before, plus its own if it provides one. */
  lemma NamesStep(fs: FileSystem, dir: string, files: seq<string>, i: nat)
    requires i < |files|
    ensures DiscoveredNames(fs, dir, files[..i + 1])
            == DiscoveredNames(fs, dir, files[..i]) + (if Provides(fs, dir, files[i]) then {ServiceNameOf(files[i])} else {})
  {
    var prefix := files[..i + 1];
    assert prefix == files[..i] + [files[i]];
    assert forall f :: f in prefix <==> f in files[..i] || f == files[i];
  }

  /** Registering one more discovered name is one more map update. */
  lemma WithDiscoveredAdd(services: map<string, ServiceValue>, names: set<string>, n: string, sio: Transport)
    ensures WithDiscovered(services, names + {n}, sio)
            == WithDiscovered(services, names, sio)[n := ServiceValue(ServiceClassName(n), Some(sio))]
  {
  }

  /** The registry after `setup_services`: each of its five classes instantiated with the
      bot's client, in the order they are registered. */
  function SetupRegistry(services: map<string, ServiceValue>, sio: Transport): map<string, ServiceValue> {
    services["logger" := ServiceValue("LoggerService", Some(sio))]
            ["database" := ServiceValue("DatabaseService", Some(sio))]
            ["config" := ServiceValue("ConfigService", Some(sio))]
            ["browser" := ServiceValue("BaseBotShaken", Some(sio))]
            ["queue_manager" := ServiceValue("QueueManager", Some(sio))]
  }

  /** Only the registry of `b` changed. */
  twostate predicate OnlyServicesChanged(b: PluggableBot)
    reads b
  {
    b.state == old(b.state) && b.outbox == old(b.outbox) && b.devMode == old(b.devMode)
    && b.Bookkeeping() == old(b.Bookkeeping()) && b.fallback == old(b.fallback)
  }

  /** `EnhancedBot`: the PluggableBot it extends, the client it hands to services, and the
      application's base path. */
  class EnhancedBot {
    const bot: PluggableBot
    const sio: Transport
    const basePath: string

    /** `__init__(options)`: merge the default options, build the PluggableBot, register the
        set-up services, name the bot after the configuration service, then discover the
        services under `services_path`. */
    constructor (options: map<string, string>, basePath: string, maxReconnectAttempts: int, devMode: bool,
                 sio: Transport, fs: FileSystem)
      ensures fresh(bot) && this.sio == sio && this.basePath == basePath
      ensures var merged := Merged(options, DefaultOptions(basePath));
              bot.config == ConfigFromOptions(merged, maxReconnectAttempts).(botName := "Enhanced Pluggable Bot")
      ensures bot.devMode == devMode && bot.state == Initial && bot.outbox == []
      ensures var dir := Merged(options, DefaultOptions(basePath))["services_path"];
        bot.services == if dir in fs.listings
                        then WithDiscovered(SetupRegistry(map[], sio), DiscoveredNames(fs, dir, fs.listings[dir]), sio)
                        else SetupRegistry(map[], sio)
      ensures bot.Bookkeeping() == Engine(map[], [], map[], map[], 0) && bot.fallback == []
      ensures bot.Valid()
    {
      var merged := MergeOptions(options, DefaultOptions(basePath));
      var cfg := ConfigFromOptions(merged, maxReconnectAttempts);
      // `setup_services` reads the bot name from the configuration service it registers
      var configService := new ConfigService(Some(sio));
      var name := configService.GetOr("bot_name", Str(cfg.botName));
      var botName := if name.Str? then name.s else cfg.botName;
      this.bot := new PluggableBot(cfg.(botName := botName), devMode);
      this.sio := sio;
      this.basePath := basePath;
      new;
      SetUpServices();
      var _ := DiscoverServices(Some(merged["services_path"]), fs);
    }

    /** `setup_services`: registers the logger, database, configuration, browser and queue
        services, each as a class, replacing any earlier service of those names. */
    method SetUpServices()
      modifies bot
      ensures bot.services == SetupRegistry(old(bot.services), sio)
      ensures OnlyServicesChanged(bot)
    {
      var loggerService := RegisterService("logger", ServiceClass("LoggerService"));
      var dbService := RegisterService("database", ServiceClass("DatabaseService"));
      var configService := RegisterService("config", ServiceClass("ConfigService"));
      var browserService := RegisterService("browser", ServiceClass("BaseBotShaken"));
      var queueManagerService := RegisterService("queue_manager", ServiceClass("QueueManager"));
    }

    /** EnhancedBot's `register_service(name, service)`: stores what `Registered` says under
        the name, replacing any earlier service, and returns what it stored. */
    method RegisterService(name: string, arg: ServiceArg) returns (stored: ServiceValue)
      modifies bot
      ensures stored == Registered(arg, sio)
      ensures bot.services == old(bot.services)[name := stored]
      ensures bot.services.Keys == old(bot.services).Keys + {name}
      ensures bot.GetService(name) == Ok(stored)
      ensures OnlyServicesChanged(bot)
    {
      var service: ServiceValue;
      match arg {
        case ServiceClass(c) =>
          service := ServiceValue(c, Some(sio));
        case ServiceInstance(v, hasSet) =>
          service := v;
          if hasSet {
            service := service.(socket := Some(sio));
          }
      }
      stored := bot.RegisterService(name, service);
    }

    /** `discover_services(services_dir)`: nothing for a directory that does not exist;
        otherwise every listed service file whose module defines its class is registered,
        and the count of those files is returned. */
    method DiscoverServices(servicesDir: Option<string>, fs: FileSystem) returns (count: Option<nat>)
      modifies bot
      ensures var dir := servicesDir.GetOr(JoinPath(basePath, "services"));
        if dir !in fs.listings then count.None? && bot.services == old(bot.services)
        else count == Some(CountProviders(fs, dir, fs.listings[dir]))
             && bot.services == WithDiscovered(old(bot.services), DiscoveredNames(fs, dir, fs.listings[dir]), sio)
      ensures OnlyServicesChanged(bot)
    {
      var dir := if servicesDir.Some? then servicesDir.value else JoinPath(basePath, "services");
      if dir !in fs.listings {
        return None;
      }
      var files := fs.listings[dir];
      ghost var before := bot.services;
      var n := 0;
      var i := 0;
      while i < |files|
        invariant 0 <= i <= |files|
        invariant n == CountProviders(fs, dir, files[..i])
        invariant bot.services == WithDiscovered(before, DiscoveredNames(fs, dir, files[..i]), sio)
        invariant OnlyServicesChanged(bot)
      {
        CountStep(fs, dir, files, i);
        var provided := DiscoverNext(dir, files, i, fs, before);
        if provided {
          n := n + 1;
        }
        i := i + 1;
      }
      assert files[..i] == files;
      count := Some(n);
    }

    /** One pass of the loop of `discover_services`, on the `i`-th listed file. */
    method DiscoverNext(dir: string, files: seq<string>, i: nat, fs: FileSystem, ghost before: map<string, ServiceValue>)
      returns (provided: bool)
      requires i < |files|
      requires bot.services == WithDiscovered(before, DiscoveredNames(fs, dir, files[..i]), sio)
      modifies bot
      ensures provided == Provides(fs, dir, files[i])
      ensures bot.services == WithDiscovered(before, DiscoveredNames(fs, dir, files[..i + 1]), sio)
      ensures OnlyServicesChanged(bot)
    {
      NamesStep(fs, dir, files, i);
      provided := DiscoverFile(dir, files[i], fs);
      if provided {
        WithDiscoveredAdd(before, DiscoveredNames(fs, dir, files[..i]), ServiceNameOf(files[i]), sio);
      }
    }

    /** One pass of the loop of `discover_services`: a service file whose module defines
        its class is registered under its service name, and any other file is skipped. */
    method DiscoverFile(dir: string, filename: string, fs: FileSystem) returns (provided: bool)
      modifies bot
      ensures provided == Provides(fs, dir, filename)
      ensures bot.services == if provided
        then old(bot.services)[ServiceNameOf(filename) := ServiceValue(ServiceClassName(ServiceNameOf(filename)), Some(sio))]
        else old(bot.services)
      ensures OnlyServicesChanged(bot)
    {
      provided := false;
      if EndsWith(filename, ServiceSuffix) {
        var serviceName := filename[..|filename| - |ServiceSuffix|];
        var path := JoinPath(dir, filename);
        var className := ServiceClassName(serviceName);
        if path in fs.classes && className in fs.classes[path] {
          var _ := RegisterService(serviceName, ServiceClass(className));
          provided := true;
        }
      }
    }

    /** EnhancedBot's `process_command`: PluggableBot's, with `handle_custom_command`
        answering `discover` (which runs a discovery in its first argument, or the
        default directory) and leaving every other unknown command unhandled. */
    method ProcessCommand(input: string, disk: Disk, fs: FileSystem) returns (outcome: CommandOutcome, handled: bool)
      modifies bot
      ensures var r := PluggableReact(bot.config, old(bot.state), old(bot.devMode), input);
        && outcome == r.outcome && bot.state == r.state && bot.devMode == r.devMode
        && bot.outbox == old(bot.outbox) + r.emits
      ensures handled <==> outcome.Unhandled? && outcome.name == "discover"
      ensures !handled ==> bot.services == old(bot.services)
      ensures handled ==>
        var dir := FirstArgOr(outcome.args, JoinPath(basePath, "services"));
        bot.services == if dir in fs.listings
                        then WithDiscovered(old(bot.services), DiscoveredNames(fs, dir, fs.listings[dir]), sio)
                        else old(bot.services)
      ensures var r := PluggableReact(bot.config, old(bot.state), old(bot.devMode), input);
        bot.loaded == if r.reloadAll
                      then Reloaded(old(bot.loaded), ReloadTargets(old(bot.loaded), bot.config.pluginsPath + ".", disk), disk)
                      else old(bot.loaded)
      ensures bot.activePlugins == old(bot.activePlugins) && bot.resultQueue == old(bot.resultQueue)
      ensures bot.moduleTimestamps == old(bot.moduleTimestamps) && bot.clock == old(bot.clock)
      ensures bot.fallback == old(bot.fallback)
    {
      outcome := bot.ProcessCommand(input, disk);
      handled := false;
      if outcome.Unhandled? && outcome.name == "discover" {
        var dir := if |outcome.args| > 0 then Some(outcome.args[0]) else None;
        var _ := DiscoverServices(dir, fs);
        handled := true;
      }
    }
  }
}
