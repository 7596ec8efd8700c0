/** `pluggable_base/pluggable.py`: the bot that routes tagged messages to plugin modules.
    Each tag names a module `<plugins_path>.<tag>_handler`; one execution creates a record
    in `active_plugins`, loads (or hot reloads) the module, calls its `handle_message` and
    queues the result, which `check_results` later sends to the current channel.

    The module system is a table: `Disk` is what the plugin files hold now (their module
    and modification time) and `loaded` is the part of `sys.modules` holding plugins. A
    plugin's `handle_message` is an abstract function from the message and the
    dependencies it gets to a result string or a raised exception. */
module Pluggable {

  import opened Wrappers
  import opened Text
  import opened JsonBlock
  import opened Chat
  import opened Services

  /** `self.config` after construction. */
  datatype PluggableConfig = PluggableConfig(
    botId: string,
    botName: string,
    botType: string,
    defaultChannel: string,
    maxReconnectAttempts: int,
    pluginsPath: string)

  /** `options.get(key, default)`. */
  function OptionOr(options: map<string, string>, key: string, default: string): (r: string)
    ensures key in options ==> r == options[key]
    ensures key !in options ==> r == default
  {
    if key in options then options[key] else default
  }

  /** `__init__`'s configuration: each option the caller gave, else its default. The
      number of reconnection attempts is passed already converted by `int()`. */
  function ConfigFromOptions(options: map<string, string>, maxReconnectAttempts: int): (r: PluggableConfig)
    ensures "bot_id" in options ==> r.botId == options["bot_id"]
    ensures "bot_id" !in options ==> r.botId == "pluggable-bot"
    ensures "bot_name" in options ==> r.botName == options["bot_name"]
    ensures "bot_name" !in options ==> r.botName == "Pluggable Bot"
    ensures "bot_type" in options ==> r.botType == options["bot_type"]
    ensures "bot_type" !in options ==> r.botType == "pluggable"
    ensures "default_channel" in options ==> r.defaultChannel == options["default_channel"]
    ensures "default_channel" !in options ==> r.defaultChannel == "general"
    ensures "plugins_path" in options ==> r.pluginsPath == options["plugins_path"]
    ensures "plugins_path" !in options ==> r.pluginsPath == "plugins"
    ensures r.maxReconnectAttempts == maxReconnectAttempts
  {
    PluggableConfig(
      OptionOr(options, "bot_id", "pluggable-bot"),
      OptionOr(options, "bot_name", "Pluggable Bot"),
      OptionOr(options, "bot_type", "pluggable"),
      OptionOr(options, "default_channel", "general"),
      maxReconnectAttempts,
      OptionOr(options, "plugins_path", "plugins"))
  }

  /** A message after `handle_message` added `jsonArray` and `jsonBlock` to it. */
  datatype Enriched = Enriched(msg: Message, jsonArray: seq<Json>, jsonBlock: Option<Json>)

  /** The exceptions the worker tells apart: `ImportError` and `AttributeError` are caught
      and reported; any other one ends the worker thread. */
  datatype ErrorKind = ImportErr | AttributeErr | OtherErr

  /** What a call of a plugin's `handle_message` does. */
  datatype Outcome = Returned(value: string) | Raised(kind: ErrorKind, text: string)

  /** A module's `handle_message`: whether its signature takes `deps`, and its behaviour. */
  datatype Handler = Handler(acceptsDeps: bool, run: (Enriched, map<string, ServiceValue>) -> Outcome)

  /** A plugin module: its `handle_message` if it defines one, and the list
      `get_dependencies()` returns if it defines that and the result is a list. */
  datatype PluginModule = PluginModule(handler: Option<Handler>, dependencies: Option<seq<string>>)

  /** A plugin file: the module it defines and its modification time. */
  datatype SourceFile = SourceFile(code: PluginModule, mtime: int)

  /** The plugin files present now, by module name. */
  type Disk = map<string, SourceFile>

  /** What a plugin execution can see that it does not change. */
  datatype Env = Env(devMode: bool, services: map<string, ServiceValue>, disk: Disk)

  /** `status` of an `active_plugins` record: "running", "completed" or "error". */
  datatype ExecStatus = Running | Completed | Failed

  datatype ExecRecord = ExecRecord(pluginName: string, status: ExecStatus, error: Option<string>)

  /** An execution id: the plugin name and the time stamp it was started at. */
  datatype ExecId = ExecId(pluginName: string, stamp: nat)

  /** One `(plugin_name, plugin_result, execution_id)` tuple of `result_queue`. */
  datatype QueuedResult = QueuedResult(pluginName: string, result: string, executionId: ExecId)

  /** The plugin bookkeeping: `active_plugins`, `result_queue`, the loaded plugin modules,
      `module_timestamps`, and the clock the execution ids are stamped from. */
  datatype Engine = Engine(
    records: map<ExecId, ExecRecord>,
    queue: seq<QueuedResult>,
    loaded: map<string, PluginModule>,
    timestamps: map<string, int>,
    clock: nat)

  /** Every record was stamped before the clock's current time. */
  predicate Fresh(e: Engine) {
    forall id :: id in e.records ==> id.stamp < e.clock
  }

  /** The module a tag routes to: `f"{plugins_path}.{tag}_handler"`. */
  function PluginName(pluginsPath: string, tag: string): (r: string)
    ensures StartsWith(r, pluginsPath + ".") && EndsWith(r, "_handler")
    ensures |r| == |pluginsPath| + |tag| + 9
  {
    pluginsPath + "." + tag + "_handler"
  }

  /** Different tags route to different modules. */
  lemma PluginNameInjective(pluginsPath: string, t1: string, t2: string)
    requires PluginName(pluginsPath, t1) == PluginName(pluginsPath, t2)
    ensures t1 == t2
  {
    var n := PluginName(pluginsPath, t1);
    var k := |pluginsPath| + 1;
    assert |t1| == |t2|;
    assert t1 == n[k..k + |t1|];
    assert t2 == n[k..k + |t2|];
  }

  /** Every plugin module lies under the prefix `/reload` scans. */
  lemma PluginNameInReloadScope(pluginsPath: string, tag: string)
    ensures StartsWith(PluginName(pluginsPath, tag), pluginsPath + ".")
  {
    assert PluginName(pluginsPath, tag)[..|pluginsPath + "."|] == pluginsPath + ".";
  }

  function PluginNames(pluginsPath: string, tags: seq<string>): (r: seq<string>)
    ensures |r| == |tags|
    ensures forall i :: 0 <= i < |tags| ==> r[i] == PluginName(pluginsPath, tags[i])
  {
    seq(|tags|, i requires 0 <= i < |tags| => PluginName(pluginsPath, tags[i]))
  }

  /** The values of `jsonData`, in field order. */
  function JsonValues(jsonData: seq<(string, Json)>): (r: seq<Json>)
    ensures |r| == |jsonData|
  {
    seq(|jsonData|, i requires 0 <= i < |jsonData| => jsonData[i].1)
  }

  /** `extract_json_data_as_array(message)`: the values of `jsonData` in order, `[]` when
      there is none. */
  method ExtractJsonDataAsArray(msg: Message) returns (arr: seq<Json>)
    ensures |arr| == |msg.jsonData|
    ensures forall i :: 0 <= i < |arr| ==> arr[i] == msg.jsonData[i].1
    ensures arr == JsonValues(msg.jsonData)
  {
    arr := [];
    var i := 0;
    while i < |msg.jsonData|
      invariant 0 <= i <= |msg.jsonData|
      invariant arr == JsonValues(msg.jsonData[..i])
    {
      assert msg.jsonData[..i + 1][..i] == msg.jsonData[..i];
      arr := arr + [msg.jsonData[i].1];
      i := i + 1;
    }
    assert msg.jsonData[..i] == msg.jsonData;
  }

  /** The two extractors agree: `extract_json_data` is the head of `extract_json_data_as_array`. */
  lemma JsonDataIsFirstValue(jsonData: seq<(string, Json)>)
    ensures ExtractJsonData(jsonData).Some? <==> |JsonValues(jsonData)| > 0
    ensures |jsonData| > 0 ==> ExtractJsonData(jsonData).value == JsonValues(jsonData)[0]
  {
  }

  /** The message `handle_message` passes on, with its two extracted fields. */
  function Enrich(msg: Message, decode: Decoder): (r: Enriched)
    ensures r.msg == msg && r.jsonArray == JsonValues(msg.jsonData)
    ensures r.jsonBlock == ExtractJsonBlock(msg.content, decode)
  {
    Enriched(msg, JsonValues(msg.jsonData), ExtractJsonBlock(msg.content, decode))
  }

  /** The dependencies a plugin gets: each requested name that is registered, with its
      service. Names not registered are left out (with a printed warning). */
  function Dependencies(requested: seq<string>, services: map<string, ServiceValue>): (r: map<string, ServiceValue>)
    ensures forall n :: n in r <==> n in requested && n in services
    ensures forall n :: n in r ==> r[n] == services[n]
  {
    map n | n in requested && n in services :: services[n]
  }

  /** `_should_reload_module(name)`: only in development mode, only for a loaded module
      whose file can be read, and only when the file is newer than the time stored for it
      (0 when none is stored). */
  predicate ShouldReload(devMode: bool, loaded: map<string, PluginModule>, timestamps: map<string, int>,
                         disk: Disk, name: string): (b: bool)
    ensures b ==> devMode && name in loaded && name in disk
    // a file no newer than its stored time, such as one just stored, is not reloaded again
    ensures name in disk && name in timestamps && disk[name].mtime <= timestamps[name] ==> !b
  {
    devMode && name in loaded && name in disk && disk[name].mtime > Get(timestamps, name).GetOr(0)
  }

  /** Why loading a plugin module failed: no such module (`ImportError`), or reading the
      file's time failed (`OSError`, which nothing catches). */
  datatype LoadError = NotFound | Unreadable

  datatype Loading = Loading(code: Result<PluginModule, LoadError>, loaded: map<string, PluginModule>,
                             timestamps: map<string, int>)

  /** The module half of `_execute_plugin_thread`: a hot reload from the file when
      `_should_reload_module` says so, otherwise `import_module` (the loaded module, else
      the file), storing the file's time in development mode when none is stored yet. */
  function Load(devMode: bool, loaded: map<string, PluginModule>, timestamps: map<string, int>,
                disk: Disk, name: string): (r: Loading)
    // nothing but the named module and its time are touched
    ensures forall k :: k != name ==> (k in r.loaded <==> k in loaded) && (k in loaded ==> r.loaded[k] == loaded[k])
    ensures forall k :: k != name ==> (k in r.timestamps <==> k in timestamps)
                                      && (k in timestamps ==> r.timestamps[k] == timestamps[k])
    // stored times never decrease
    ensures forall k :: k in timestamps ==> k in r.timestamps && timestamps[k] <= r.timestamps[k]
    ensures r.code == Err(NotFound) <==> name !in loaded && name !in disk
    ensures r.code.Ok? ==> name in r.loaded && r.loaded[name] == r.code.value
    ensures ShouldReload(devMode, loaded, timestamps, disk, name) ==>
              r.code == Ok(disk[name].code) && name in r.timestamps && r.timestamps[name] == disk[name].mtime
    ensures !devMode ==> r.timestamps == timestamps
  {
    if ShouldReload(devMode, loaded, timestamps, disk, name) then
      Loading(Ok(disk[name].code), loaded[name := disk[name].code], timestamps[name := disk[name].mtime])
    else if name !in loaded && name !in disk then
      Loading(Err(NotFound), loaded, timestamps)
    else
      var m := if name in loaded then loaded[name] else disk[name].code;
      if devMode && name !in timestamps then
        if name in disk then Loading(Ok(m), loaded[name := m], timestamps[name := disk[name].mtime])
        else Loading(Err(Unreadable), loaded[name := m], timestamps)
      else Loading(Ok(m), loaded[name := m], timestamps)
  }

  /** How an execution ends: a result, a caught error's text, or a worker that died. */
  datatype Finish = Done(result: string) | Caught(error: string) | Crashed

  /** The model's text for a module that does not exist: `No module named '<name>'`, always
      naming the full module. Python's `str(e)` names the first missing package instead,
      which differs when the package itself is absent (`No module named 'plugins'`). */
  function NoModuleText(name: string): string {
    "No module named '" + name + "'"
  }

  /** `str(e)` of the `AttributeError` for a module without `handle_message`. */
  function NoHandlerText(name: string): string {
    "module '" + name + "' has no attribute 'handle_message'"
  }

  /** The call half of `_execute_plugin_thread`: look up `handle_message`, gather the
      dependencies, call the handler (with `deps` when it takes them). */
  function Run(name: string, code: Result<PluginModule, LoadError>, services: map<string, ServiceValue>,
               msg: Enriched): (r: Finish)
    ensures code == Err(NotFound) ==> r == Caught(NoModuleText(name))
    ensures code == Err(Unreadable) ==> r == Crashed
    ensures code.Ok? && code.value.handler.None? ==> r == Caught(NoHandlerText(name))
    ensures code.Ok? && code.value.handler.Some? ==>
      var h := code.value.handler.value;
      var deps := if h.acceptsDeps && code.value.dependencies.Some?
                  then Dependencies(code.value.dependencies.value, services) else map[];
      match h.run(msg, deps)
      case Returned(v) => r == Done(v)
      case Raised(kind, text) => r == if kind == OtherErr then Crashed else Caught(text)
  {
    match code
    case Err(NotFound) => Caught(NoModuleText(name))
    case Err(Unreadable) => Crashed
    case Ok(m) =>
      if m.handler.None? then Caught(NoHandlerText(name))
      else
        var deps := if m.dependencies.Some? then Dependencies(m.dependencies.value, services) else map[];
        var h := m.handler.value;
        match h.run(msg, if h.acceptsDeps then deps else map[])
        case Returned(v) => Done(v)
        case Raised(kind, text) => if kind == OtherErr then Crashed else Caught(text)
  }

  /** The end of an execution: a result or a caught error queues one tuple and settles
      the record; a dead worker leaves both as they were. */
  function Settle(e: Engine, id: ExecId, f: Finish): (r: Engine)
    requires id in e.records
    ensures r.loaded == e.loaded && r.timestamps == e.timestamps && r.clock == e.clock
    ensures r.records.Keys == e.records.Keys
    ensures forall k :: k in e.records && k != id ==> r.records[k] == e.records[k]
    ensures r.records[id].pluginName == e.records[id].pluginName
    ensures f.Crashed? ==> r == e
    ensures f.Done? ==> r.records[id].status == Completed
                        && r.queue == e.queue + [QueuedResult(e.records[id].pluginName, f.result, id)]
    ensures f.Caught? ==> r.records[id].status == Failed && r.records[id].error == Some(f.error)
                          && r.queue == e.queue + [QueuedResult(e.records[id].pluginName, "Error: " + f.error, id)]
  {
    var rec := e.records[id];
    match f
    case Done(v) =>
      e.(queue := e.queue + [QueuedResult(rec.pluginName, v, id)],
         records := e.records[id := rec.(status := Completed)])
    case Caught(t) =>
      e.(queue := e.queue + [QueuedResult(rec.pluginName, "Error: " + t, id)],
         records := e.records[id := rec.(status := Failed, error := Some(t))])
    case Crashed => e
  }

  /** One `execute_plugin(name, msg)` run to its end: the record is created as "running",
      then the module is loaded and called, then the outcome is settled. */
  function ExecuteStep(e: Engine, env: Env, name: string, msg: Enriched): (r: Engine)
    ensures r.clock == e.clock + 1
    ensures Fresh(e) ==> Fresh(r)
    ensures ExecId(name, e.clock) in r.records && r.records[ExecId(name, e.clock)].pluginName == name
    ensures forall k :: k in r.records <==> k in e.records || k == ExecId(name, e.clock)
    ensures forall k :: k in e.records && k != ExecId(name, e.clock) ==> r.records[k] == e.records[k]
    // a result is queued exactly when the record leaves "running", and it is this execution's
    ensures e.queue <= r.queue && |r.queue| <= |e.queue| + 1
    ensures |r.queue| == |e.queue| + 1 <==> r.records[ExecId(name, e.clock)].status != Running
    ensures |r.queue| == |e.queue| + 1 ==> r.queue[|e.queue|].executionId == ExecId(name, e.clock)
                                           && r.queue[|e.queue|].pluginName == name
    ensures var rec := r.records[ExecId(name, e.clock)];
            rec.status == Failed ==> rec.error.Some? && r.queue[|e.queue|].result == "Error: " + rec.error.value
  {
    var id := ExecId(name, e.clock);
    var started := e.(records := e.records[id := ExecRecord(name, Running, None)], clock := e.clock + 1);
    var l := Load(env.devMode, e.loaded, e.timestamps, env.disk, name);
    Settle(started.(loaded := l.loaded, timestamps := l.timestamps), id, Run(name, l.code, env.services, msg))
  }

  /** `execute_plugin` for each name in turn. */
  function ExecuteAll(e: Engine, env: Env, names: seq<string>, msg: Enriched): (r: Engine)
    ensures r.clock == e.clock + |names|
    ensures e.queue <= r.queue && |r.queue| <= |e.queue| + |names|
    decreases |names|
  {
    if |names| == 0 then e
    else ExecuteStep(ExecuteAll(e, env, names[..|names| - 1], msg), env, names[|names| - 1], msg)
  }

  /** One more name is one more step. */
  lemma ExecuteAllStep(e: Engine, env: Env, names: seq<string>, i: nat, msg: Enriched)
    requires i < |names|
    ensures ExecuteAll(e, env, names[..i + 1], msg) == ExecuteStep(ExecuteAll(e, env, names[..i], msg), env, names[i], msg)
  {
    assert names[..i + 1][..i] == names[..i];
  }

  /** Running a list of plugins advances the clock once per plugin, keeps every earlier
      record, and only grows the queue, by at most one result per plugin. */
  lemma {:induction false} ExecuteAllKeeps(e: Engine, env: Env, names: seq<string>, msg: Enriched)
    requires Fresh(e)
    ensures var r := ExecuteAll(e, env, names, msg);
      && r.clock == e.clock + |names| && Fresh(r)
      && (forall k :: k in e.records ==> k in r.records && r.records[k] == e.records[k])
      && e.queue <= r.queue && |r.queue| <= |e.queue| + |names|
  {
    if |names| > 0 {
      var init := names[..|names| - 1];
      ExecuteAllKeeps(e, env, init, msg);
      var mid := ExecuteAll(e, env, init, msg);
      assert forall k :: k in e.records ==> k in mid.records && k.stamp < mid.clock;
    }
  }

  /** The i-th plugin of a run gets the record stamped `clock + i`, under its own name. */
  lemma {:induction false} ExecuteAllRecords(e: Engine, env: Env, names: seq<string>, msg: Enriched)
    requires Fresh(e)
    ensures var r := ExecuteAll(e, env, names, msg);
      forall i :: 0 <= i < |names| ==> ExecId(names[i], e.clock + i) in r.records
                                       && r.records[ExecId(names[i], e.clock + i)].pluginName == names[i]
  {
    if |names| > 0 {
      var init := names[..|names| - 1];
      ExecuteAllRecords(e, env, init, msg);
      ExecuteAllKeeps(e, env, init, msg);
      var mid := ExecuteAll(e, env, init, msg);
      var r := ExecuteStep(mid, env, names[|names| - 1], msg);
      forall i | 0 <= i < |names|
        ensures ExecId(names[i], e.clock + i) in r.records && r.records[ExecId(names[i], e.clock + i)].pluginName == names[i]
      {
        if i < |names| - 1 {
          assert init[i] == names[i];
          assert ExecId(names[i], e.clock + i) != ExecId(names[|names| - 1], mid.clock);
        }
      }
    }
  }

  /** The results a run queues come from its own executions. */
  lemma {:induction false} ExecuteAllQueueStamps(e: Engine, env: Env, names: seq<string>, msg: Enriched)
    requires Fresh(e)
    ensures var r := ExecuteAll(e, env, names, msg);
      forall j :: |e.queue| <= j < |r.queue| ==> e.clock <= r.queue[j].executionId.stamp < r.clock
  {
    if |names| > 0 {
      var init := names[..|names| - 1];
      ExecuteAllQueueStamps(e, env, init, msg);
      ExecuteAllKeeps(e, env, init, msg);
      var mid := ExecuteAll(e, env, init, msg);
      var r := ExecuteStep(mid, env, names[|names| - 1], msg);
      forall j | |e.queue| <= j < |r.queue|
        ensures e.clock <= r.queue[j].executionId.stamp < r.clock
      {
        if j < |mid.queue| {
          assert r.queue[j] == mid.queue[j];
        }
      }
    }
  }

  /** In this sequential model, where each execution runs to its end before the next one
      starts, the results a run queues are in the order their executions were started.
      Worker threads queue in the order they finish, which can differ. */
  lemma {:induction false} ExecuteAllQueueOrder(e: Engine, env: Env, names: seq<string>, msg: Enriched)
    requires Fresh(e)
    ensures var r := ExecuteAll(e, env, names, msg);
      forall j, k :: |e.queue| <= j < k < |r.queue| ==> r.queue[j].executionId.stamp < r.queue[k].executionId.stamp
  {
    if |names| > 0 {
      var init := names[..|names| - 1];
      ExecuteAllQueueOrder(e, env, init, msg);
      ExecuteAllQueueStamps(e, env, init, msg);
      ExecuteAllKeeps(e, env, init, msg);
      var mid := ExecuteAll(e, env, init, msg);
      var r := ExecuteStep(mid, env, names[|names| - 1], msg);
      forall j, k | |e.queue| <= j < k < |r.queue|
        ensures r.queue[j].executionId.stamp < r.queue[k].executionId.stamp
      {
        assert r.queue[j] == mid.queue[j];
        if k < |mid.queue| {
          assert r.queue[k] == mid.queue[k];
        }
      }
    }
  }

  /** `check_results`' sends: one `message` per queued result, in queue order, and none
      when the bot is not in a channel. */
  function Sends(st: BotState, queue: seq<QueuedResult>): (r: seq<Emit>)
    ensures !InChannel(st) ==> r == []
    ensures InChannel(st) ==> |r| == |queue| && forall i :: 0 <= i < |queue| ==> r[i] == Post(Current(st), queue[i].result)
  {
    if !InChannel(st) || |queue| == 0 then []
    else [Post(Current(st), queue[0].result)] + Sends(st, queue[1..])
  }

  /** Draining in two rounds sends what draining once sends. */
  lemma {:induction false} SendsAppend(st: BotState, q1: seq<QueuedResult>, q2: seq<QueuedResult>)
    ensures Sends(st, q1 + q2) == Sends(st, q1) + Sends(st, q2)
  {
    if InChannel(st) && |q1| > 0 {
      assert (q1 + q2)[1..] == q1[1..] + q2;
      SendsAppend(st, q1[1..], q2);
    }
  }

  /** The number of records with a given status. */
  function CountStatus(records: map<ExecId, ExecRecord>, s: ExecStatus): nat {
    |set id | id in records && records[id].status == s|
  }

  /** `get_active_plugins()`'s counts. */
  datatype PluginStats = PluginStats(active: nat, completed: nat, error: nat, total: nat)

  /** The records among `ids` that have status `s`. */
  function CountIn(ids: set<ExecId>, records: map<ExecId, ExecRecord>, s: ExecStatus): nat {
    |set id | id in ids && id in records && records[id].status == s|
  }

  /** The counts over the records among `ids`, with `|ids|` as the total. */
  function Tally(ids: set<ExecId>, records: map<ExecId, ExecRecord>): PluginStats {
    PluginStats(CountIn(ids, records, Running), CountIn(ids, records, Completed), CountIn(ids, records, Failed), |ids|)
  }

  /** One more record counted under its status. */
  function Bump(t: PluginStats, s: ExecStatus): PluginStats {
    match s
    case Running => t.(active := t.active + 1, total := t.total + 1)
    case Completed => t.(completed := t.completed + 1, total := t.total + 1)
    case Failed => t.(error := t.error + 1, total := t.total + 1)
  }

  lemma CountInAdd(ids: set<ExecId>, x: ExecId, records: map<ExecId, ExecRecord>, s: ExecStatus)
    requires x !in ids && x in records
    ensures CountIn(ids + {x}, records, s) == CountIn(ids, records, s) + (if records[x].status == s then 1 else 0)
  {
    var before := set id | id in ids && id in records && records[id].status == s;
    var after := set id | id in ids + {x} && id in records && records[id].status == s;
    if records[x].status == s {
      assert after == before + {x};
    } else {
      assert after == before;
    }
  }

  /** Counting one more record bumps exactly the count of its status. */
  lemma TallyAdd(ids: set<ExecId>, x: ExecId, records: map<ExecId, ExecRecord>)
    requires x !in ids && x in records
    ensures Tally(ids + {x}, records) == Bump(Tally(ids, records), records[x].status)
  {
    CountInAdd(ids, x, records, Running);
    CountInAdd(ids, x, records, Completed);
    CountInAdd(ids, x, records, Failed);
    assert |ids + {x}| == |ids| + 1;
  }

  /** Over every key, the counts are the counts of the whole map. */
  lemma TallyAll(records: map<ExecId, ExecRecord>)
    ensures Tally(records.Keys, records)
            == PluginStats(CountStatus(records, Running), CountStatus(records, Completed), CountStatus(records, Failed), |records|)
  {
    forall s | true
      ensures CountIn(records.Keys, records, s) == CountStatus(records, s)
    {
      assert (set id | id in records.Keys && id in records && records[id].status == s)
             == (set id | id in records && records[id].status == s);
    }
  }

  /** How PluggableBot's `process_command` ends: it goes on, exits, or hands a command it
      does not know to `handle_custom_command`. */
  datatype CommandOutcome = Continue | Exit | Unhandled(name: string, args: seq<string>)

  /** What one console line does: the new state, the new development flag, the emits in
      order, whether every plugin module is reloaded, and how the command ended. */
  datatype PluggableReaction = PluggableReaction(
    state: BotState, devMode: bool, emits: seq<Emit>, reloadAll: bool, outcome: CommandOutcome)

  /** The commands PluggableBot's `process_command` knows. */
  const PluggableCommands: set<string> := {"join", "leave", "reconnect", "mode", "reload", "plugins", "help", "exit"}

  /** The effect of one slash command. */
  function PluggableCommandReaction(cfg: PluggableConfig, st: BotState, dev: bool, name: string, args: seq<string>)
    : (r: PluggableReaction)
    ensures r.state.isConnected == st.isConnected && r.state.connectionAttempts == st.connectionAttempts
    ensures r.state.channelStates == st.channelStates
    ensures r.devMode == (if name == "mode" then !dev else dev)
    ensures r.reloadAll <==> name == "reload" && dev
    ensures r.outcome == (if name == "exit" then Exit
                          else if name in PluggableCommands then Continue
                          else Unhandled(name, args))
    ensures name !in {"join", "leave", "exit"} ==> r.state == st && r.emits == []
    ensures name == "join" ==>
      var target := FirstArgOr(args, cfg.defaultChannel);
      if st.isConnected then r.state == st.(currentChannel := Some(target)) && r.emits == [JoinChannel(target)]
      else r.state == st && r.emits == []
    ensures name == "leave" ==>
      if InChannel(st) && st.isConnected then r.state == st.(currentChannel := None) && r.emits == [LeaveChannel(Current(st))]
      else r.state == st && r.emits == []
    ensures name == "exit" ==>
      r.state == st && r.emits == (if InChannel(st) && st.isConnected then [LeaveChannel(Current(st))] else [])
  {
    var same := PluggableReaction(st, dev, [], false, Continue);
    if name == "join" then
      var target := FirstArgOr(args, cfg.defaultChannel);
      if !st.isConnected then same
      else same.(state := st.(currentChannel := Some(target)), emits := [JoinChannel(target)])
    else if name == "leave" then
      if !InChannel(st) || !st.isConnected then same
      else same.(state := st.(currentChannel := None), emits := [LeaveChannel(Current(st))])
    else if name == "mode" then same.(devMode := !dev)
    else if name == "reload" then same.(reloadAll := dev)
    else if name == "exit" then
      same.(emits := if InChannel(st) && st.isConnected then [LeaveChannel(Current(st))] else [], outcome := Exit)
    else if name in PluggableCommands then
      // "reconnect" (the transport's connect), "plugins" and "help" only print
      same
    else same.(outcome := Unhandled(name, args))
  }

  /** PluggableBot's `process_command(input_text)`. */
  function PluggableReact(cfg: PluggableConfig, st: BotState, dev: bool, input: string): (r: PluggableReaction)
    ensures !Parse(input).Command? ==> r.state == st && r.devMode == dev && !r.reloadAll && r.outcome == Continue
    ensures Parse(input).Line? ==> r.emits == (if CanSend(st) then [Post(Current(st), Strip(input))] else [])
    ensures Parse(input).Blank? ==> r.emits == []
  {
    match Parse(input)
    case Blank => PluggableReaction(st, dev, [], false, Continue)
    case Line(text) => PluggableReaction(st, dev, if CanSend(st) then [Post(Current(st), text)] else [], false, Continue)
    case Command(name, args) => PluggableCommandReaction(cfg, st, dev, name, args)
  }

  /** `/mode` is read as the `mode` command. */
  lemma ModeLine(cfg: PluggableConfig, st: BotState, dev: bool)
    ensures PluggableReact(cfg, st, dev, "/mode") == PluggableCommandReaction(cfg, st, dev, "mode", [])
  {
    ParseBare("mode", "/mode");
  }

  /** `/mode` twice leaves the bot as it was. */
  lemma ModeTwice(cfg: PluggableConfig, st: BotState, dev: bool)
    ensures var r1 := PluggableReact(cfg, st, dev, "/mode");
            var r2 := PluggableReact(cfg, r1.state, r1.devMode, "/mode");
            r1.devMode == !dev && r2.devMode == dev && r2.state == st && r1.emits + r2.emits == []
  {
    ModeLine(cfg, st, dev);
    ModeLine(cfg, st, !dev);
  }

  /** Outside development mode `/reload` reloads nothing and changes nothing. */
  lemma {:induction false} ReloadNeedsDevMode(cfg: PluggableConfig, st: BotState)
    ensures PluggableReact(cfg, st, false, "/reload") == PluggableReaction(st, false, [], false, Continue)
  {
    ParseBare("reload", "/reload");
  }

  /** Unlike BaseBot's, PluggableBot's `/join` asks for no channel details. */
  lemma {:induction false} JoinEmitsOnlyJoin(cfg: PluggableConfig, st: BotState, c: string)
    requires st.isConnected && c != "" && NoSpace(c)
    ensures PluggableReact(cfg, st, false, "/join " + c).emits == [JoinChannel(c)]
  {
    ParseWithArg("join", c, "/join " + c);
  }

  /** The line the `bot_registered` callback runs is the `join` command for "general". */
  lemma JoinGeneral(cfg: PluggableConfig, st: BotState, dev: bool)
    ensures PluggableReact(cfg, st, dev, "/join general") == PluggableCommandReaction(cfg, st, dev, "join", ["general"])
  {
    ParseWithArg("join", "general", "/join general");
  }

  /** The plugin modules `/reload` reloads: loaded, under `<plugins_path>.`, and with a file
      to reload from (a module whose file is gone fails to reload and is not counted). */
  function ReloadTargets(loaded: map<string, PluginModule>, prefix: string, disk: Disk): (r: set<string>)
    ensures forall n :: n in r <==> n in loaded && StartsWith(n, prefix) && n in disk
  {
    set n | n in loaded && StartsWith(n, prefix) && n in disk
  }

  /** `sys.modules` after `/reload`: every target re-read from its file, the rest as before. */
  function Reloaded(loaded: map<string, PluginModule>, targets: set<string>, disk: Disk): (r: map<string, PluginModule>)
    requires forall n :: n in targets ==> n in disk
    ensures r.Keys == loaded.Keys
    ensures forall n :: n in loaded ==> r[n] == if n in targets then disk[n].code else loaded[n]
  {
    map n | n in loaded :: if n in targets then disk[n].code else loaded[n]
  }

  /** A map that agrees with `Reloaded` on every key is `Reloaded`. */
  lemma ReloadedPointwise(loaded: map<string, PluginModule>, targets: set<string>, disk: Disk,
                          modules: map<string, PluginModule>)
    requires forall n :: n in targets ==> n in disk
    requires modules.Keys == loaded.Keys
    requires forall k :: k in loaded ==> modules[k] == if k in targets then disk[k].code else loaded[k]
    ensures modules == Reloaded(loaded, targets, disk)
  {
  }

  /** Reloading twice from the same files is reloading once. */
  lemma ReloadIdempotent(loaded: map<string, PluginModule>, prefix: string, disk: Disk)
    ensures var t := ReloadTargets(loaded, prefix, disk);
            var once := Reloaded(loaded, t, disk);
            ReloadTargets(once, prefix, disk) == t && Reloaded(once, t, disk) == once
  {
  }

  /** Taking `n` out of the keys still to visit adds it to the targets met so far exactly
      when it is a target. */
  lemma TargetsStep(targets: set<string>, todo: set<string>, hit: set<string>, n: string, isTarget: bool)
    requires hit == targets - todo && n in todo && (n in targets <==> isTarget)
    ensures isTarget ==> n !in hit && targets - (todo - {n}) == hit + {n} && |hit + {n}| == |hit| + 1
    ensures !isTarget ==> targets - (todo - {n}) == hit
  {
  }

  /** The loop of `/reload` over `sys.modules`: every module under `prefix` that still has a
      file is re-read from it, and the reloads are counted. */
  method ReloadModules(loaded: map<string, PluginModule>, prefix: string, disk: Disk)
    returns (modules: map<string, PluginModule>, count: nat)
    ensures count == |ReloadTargets(loaded, prefix, disk)|
    ensures modules == Reloaded(loaded, ReloadTargets(loaded, prefix, disk), disk)
  {
    ghost var targets := ReloadTargets(loaded, prefix, disk);
    modules := loaded;
    var todo := loaded.Keys;
    ghost var hit: set<string> := {};
    count := 0;
    while todo != {}
      invariant todo <= loaded.Keys && hit == targets - todo
      invariant count == |hit|
      invariant modules.Keys == loaded.Keys
      invariant forall k :: k in loaded ==> modules[k] == if k in hit then disk[k].code else loaded[k]
      decreases |todo|
    {
      var n :| n in todo;
      TargetsStep(targets, todo, hit, n, StartsWith(n, prefix) && n in disk);
      if StartsWith(n, prefix) && n in disk {
        modules := modules[n := disk[n].code];
        hit := hit + {n};
        count := count + 1;
      }
      todo := todo - {n};
    }
    ReloadedPointwise(loaded, targets, disk, modules);
  }

  /** PluggableBot: configuration, `self.state`, the service registry, the plugin
      bookkeeping, the development flag, the transport's outbox and the messages handed to
      the `on_message` fallback. */
  class PluggableBot {
    const config: PluggableConfig
    var state: BotState
    var devMode: bool
    var services: map<string, ServiceValue>
    var activePlugins: map<ExecId, ExecRecord>
    var resultQueue: seq<QueuedResult>
    var loaded: map<string, PluginModule>
    var moduleTimestamps: map<string, int>
    var clock: nat
    var outbox: seq<Emit>
    var fallback: seq<Enriched>

    ghost function Bookkeeping(): Engine
      reads this
    {
      Engine(activePlugins, resultQueue, loaded, moduleTimestamps, clock)
    }

    ghost function EnvOf(disk: Disk): Env
      reads this
    {
      Env(devMode, services, disk)
    }

    ghost predicate Valid()
      reads this
    {
      Fresh(Bookkeeping())
    }

    /** `__init__`: `devMode` is what `BOT_DEV_MODE` said. */
    constructor (config: PluggableConfig, devMode: bool)
      ensures this.config == config && this.devMode == devMode
      ensures state == Initial && services == map[] && activePlugins == map[] && resultQueue == []
      ensures loaded == map[] && moduleTimestamps == map[] && clock == 0 && outbox == [] && fallback == []
      ensures Valid()
    {
      this.config := config;
      this.devMode := devMode;
      state := Initial;
      services := map[];
      activePlugins := map[];
      resultQueue := [];
      loaded := map[];
      moduleTimestamps := map[];
      clock := 0;
      outbox := [];
      fallback := [];
    }

    /** The `connect` callback: connected, attempts reset, and the bot registers itself. */
    method OnConnect()
      modifies this
      ensures state == old(state).(isConnected := true, connectionAttempts := 0)
      ensures outbox == old(outbox) + [Register(config.botId, config.botName, config.botType)]
      ensures Bookkeeping() == old(Bookkeeping()) && devMode == old(devMode) && services == old(services)
      ensures fallback == old(fallback)
    {
      state := state.(isConnected := true, connectionAttempts := 0);
      outbox := outbox + [Register(config.botId, config.botName, config.botType)];
    }

    /** The `disconnect` callback: only the connection flag changes. */
    method OnDisconnect()
      modifies this
      ensures state == old(state).(isConnected := false)
      ensures outbox == old(outbox) && Bookkeeping() == old(Bookkeeping()) && devMode == old(devMode)
      ensures services == old(services) && fallback == old(fallback)
    {
      state := state.(isConnected := false);
    }

    /** The `connect_error` callback: one more failed attempt; `gaveUp` is the branch that
        prints "Failed to connect ... Use /reconnect". */
    method OnConnectError() returns (gaveUp: bool)
      modifies this
      ensures state == old(state).(connectionAttempts := old(state).connectionAttempts + 1)
      ensures gaveUp <==> state.connectionAttempts >= config.maxReconnectAttempts
      ensures outbox == old(outbox) && Bookkeeping() == old(Bookkeeping()) && devMode == old(devMode)
      ensures services == old(services) && fallback == old(fallback)
    {
      state := state.(connectionAttempts := state.connectionAttempts + 1);
      gaveUp := !(state.connectionAttempts < config.maxReconnectAttempts);
    }

    /** The `channel_status` callback stores what the server said about `channelId`. */
    method OnChannelStatus(channelId: string, active: Activity)
      modifies this
      ensures state == old(state).(channelStates := old(state).channelStates[channelId := active])
      ensures outbox == old(outbox) && Bookkeeping() == old(Bookkeeping()) && devMode == old(devMode)
      ensures services == old(services) && fallback == old(fallback)
    {
      state := state.(channelStates := state.channelStates[channelId := active]);
    }

    /** `register_service(name, instance)`: stores the service under its name, replacing any
        earlier one, and returns it. */
    method RegisterService(name: string, value: ServiceValue) returns (stored: ServiceValue)
      modifies this
      ensures services == old(services)[name := value]
      ensures stored == value && GetService(name) == Ok(value)
      ensures state == old(state) && outbox == old(outbox) && Bookkeeping() == old(Bookkeeping())
      ensures devMode == old(devMode) && fallback == old(fallback)
    {
      services := services[name := value];
      stored := value;
    }

    /** `get_service(name)`: the service, or the `KeyError` for a name not registered. */
    function GetService(name: string): (r: Result<ServiceValue, string>)
      reads this
      ensures r.Err? <==> name !in services
      ensures r.Ok? ==> r.value == services[name]
      ensures r.Err? ==> r.error == "Service not found: " + name
    {
      if name !in services then Err("Service not found: " + name) else Ok(services[name])
    }

    /** `has_service(name)`: exactly when `get_service` would succeed. */
    function HasService(name: string): (r: bool)
      reads this
      ensures r <==> GetService(name).Ok?
    {
      name in services
    }

    /** The dependency loop of `_execute_plugin_thread`. */
    method ResolveDependencies(requested: seq<string>) returns (deps: map<string, ServiceValue>)
      ensures forall n :: n in deps <==> n in requested && HasService(n)
      ensures forall n :: n in deps ==> GetService(n) == Ok(deps[n])
      ensures deps == Dependencies(requested, services)
    {
      deps := map[];
      var i := 0;
      while i < |requested|
        invariant 0 <= i <= |requested|
        invariant deps == Dependencies(requested[..i], services)
      {
        var n := requested[i];
        if HasService(n) {
          var s := GetService(n);
          deps := deps[n := s.value];
        }
        assert requested[..i + 1] == requested[..i] + [n];
        i := i + 1;
      }
      assert requested[..i] == requested;
    }

    /** `_should_reload_module(name)`, which also stores the newer time when it says yes. */
    method ShouldReloadModule(name: string, disk: Disk) returns (reload: bool)
      modifies this`moduleTimestamps
      ensures reload == ShouldReload(devMode, loaded, old(moduleTimestamps), disk, name)
      ensures moduleTimestamps == if reload then old(moduleTimestamps)[name := disk[name].mtime] else old(moduleTimestamps)
      ensures forall k :: k in old(moduleTimestamps) ==> k in moduleTimestamps && old(moduleTimestamps)[k] <= moduleTimestamps[k]
      ensures state == old(state) && outbox == old(outbox) && devMode == old(devMode) && services == old(services)
      ensures activePlugins == old(activePlugins) && resultQueue == old(resultQueue) && loaded == old(loaded)
      ensures clock == old(clock) && fallback == old(fallback)
    {
      if !devMode {
        return false;
      }
      if name !in loaded {
        return false;
      }
      if name !in disk {
        // `os.path.getmtime` raises `OSError`, which is caught
        return false;
      }
      var current := disk[name].mtime;
      var last := if name in moduleTimestamps then moduleTimestamps[name] else 0;
      if current > last {
        moduleTimestamps := moduleTimestamps[name := current];
        return true;
      }
      return false;
    }

    /** The module half of `_execute_plugin_thread`. */
    method LoadPlugin(name: string, disk: Disk) returns (code: Result<PluginModule, LoadError>)
      modifies this`loaded, this`moduleTimestamps
      ensures var l := Load(devMode, old(loaded), old(moduleTimestamps), disk, name);
              code == l.code && loaded == l.loaded && moduleTimestamps == l.timestamps
      ensures state == old(state) && outbox == old(outbox) && devMode == old(devMode) && services == old(services)
      ensures activePlugins == old(activePlugins) && resultQueue == old(resultQueue)
      ensures clock == old(clock) && fallback == old(fallback)
    {
      var reload := false;
      if name in loaded {
        reload := ShouldReloadModule(name, disk);
      }
      if reload {
        loaded := loaded[name := disk[name].code];
        code := Ok(disk[name].code);
        return;
      }
      if name in loaded {
        code := Ok(loaded[name]);
      } else if name in disk {
        loaded := loaded[name := disk[name].code];
        code := Ok(disk[name].code);
      } else {
        code := Err(NotFound);
        return;
      }
      if devMode && name !in moduleTimestamps {
        if name in disk {
          moduleTimestamps := moduleTimestamps[name := disk[name].mtime];
        } else {
          code := Err(Unreadable);
        }
      }
    }

    /** The call half of `_execute_plugin_thread`. */
    method RunPlugin(name: string, code: Result<PluginModule, LoadError>, msg: Enriched) returns (f: Finish)
      ensures f == Run(name, code, services, msg)
    {
      if code.Err? {
        f := if code.error == NotFound then Caught(NoModuleText(name)) else Crashed;
        return;
      }
      var m := code.value;
      if m.handler.None? {
        f := Caught(NoHandlerText(name));
        return;
      }
      var deps := map[];
      if m.dependencies.Some? {
        deps := ResolveDependencies(m.dependencies.value);
      }
      var h := m.handler.value;
      var outcome := if h.acceptsDeps then h.run(msg, deps) else h.run(msg, map[]);
      match outcome
      case Returned(v) => f := Done(v);
      case Raised(kind, text) => f := if kind == OtherErr then Crashed else Caught(text);
    }

    /** `execute_plugin(name, msg)`, with the worker run to its end: the record is created
        as "running" first, then the module is loaded and called, then the result is
        queued and the record settled. */
    method ExecutePlugin(name: string, msg: Enriched, disk: Disk) returns (id: ExecId)
      modifies this`activePlugins, this`resultQueue, this`loaded, this`moduleTimestamps, this`clock
      ensures id == ExecId(name, old(clock))
      ensures Bookkeeping() == ExecuteStep(old(Bookkeeping()), old(EnvOf(disk)), name, msg)
    {
      id := ExecId(name, clock);
      activePlugins := activePlugins[id := ExecRecord(name, Running, None)];
      clock := clock + 1;
      var code := LoadPlugin(name, disk);
      var f := RunPlugin(name, code, msg);
      SettleRecord(id, f);
    }

    /** The end of `_execute_plugin_thread`: the tuple is queued and the record updated. */
    method SettleRecord(id: ExecId, f: Finish)
      requires id in activePlugins
      modifies this`activePlugins, this`resultQueue
      ensures Bookkeeping() == Settle(old(Bookkeeping()), id, f)
    {
      var rec := activePlugins[id];
      match f
      case Done(v) =>
        resultQueue := resultQueue + [QueuedResult(rec.pluginName, v, id)];
        activePlugins := activePlugins[id := rec.(status := Completed)];
      case Caught(t) =>
        resultQueue := resultQueue + [QueuedResult(rec.pluginName, "Error: " + t, id)];
        activePlugins := activePlugins[id := rec.(status := Failed, error := Some(t))];
      case Crashed =>
    }

    /** `handle_message(message)`: with tags, one plugin execution per tag in tag order and
        no fallback; without, the `on_message` fallback once. Either way the message carries
        its extracted `jsonArray` and `jsonBlock`. */
    method HandleMessage(msg: Message, decode: Decoder, disk: Disk)
      requires Valid()
      modifies this
      ensures Valid()
      ensures var em := Enrich(msg, decode);
        && (|msg.tags| > 0 ==>
              Bookkeeping() == ExecuteAll(old(Bookkeeping()), old(EnvOf(disk)), PluginNames(config.pluginsPath, msg.tags), em)
              && fallback == old(fallback))
        && (|msg.tags| == 0 ==> Bookkeeping() == old(Bookkeeping()) && fallback == old(fallback) + [em])
      ensures state == old(state) && outbox == old(outbox) && devMode == old(devMode) && services == old(services)
    {
      var jsonArray := ExtractJsonDataAsArray(msg);
      var em := Enriched(msg, jsonArray, ExtractJsonBlock(msg.content, decode));
      if |msg.tags| == 0 {
        fallback := fallback + [em];
        return;
      }
      DispatchTags(msg.tags, em, disk);
      ExecuteAllKeeps(old(Bookkeeping()), old(EnvOf(disk)), PluginNames(config.pluginsPath, msg.tags), em);
    }

    /** The loop of `handle_message` over the tags: `execute_plugin` of each tag's module,
        in tag order. */
    method DispatchTags(tags: seq<string>, msg: Enriched, disk: Disk)
      modifies this`activePlugins, this`resultQueue, this`loaded, this`moduleTimestamps, this`clock
      ensures Bookkeeping() == ExecuteAll(old(Bookkeeping()), old(EnvOf(disk)), PluginNames(config.pluginsPath, tags), msg)
    {
      ghost var e0 := Bookkeeping();
      ghost var env := EnvOf(disk);
      ghost var names := PluginNames(config.pluginsPath, tags);
      var i := 0;
      while i < |tags|
        invariant 0 <= i <= |tags|
        invariant Bookkeeping() == ExecuteAll(e0, env, names[..i], msg)
        invariant devMode == old(devMode) && services == old(services)
      {
        ExecuteNext(names, i, PluginName(config.pluginsPath, tags[i]), msg, disk, e0, env);
        i := i + 1;
      }
      assert names[..i] == names;
    }

    /** One pass of the loop of `handle_message`: `execute_plugin` of the next module. */
    method ExecuteNext(ghost names: seq<string>, i: nat, pluginName: string, msg: Enriched, disk: Disk,
                       ghost e0: Engine, ghost env: Env)
      requires i < |names| && pluginName == names[i] && env == EnvOf(disk)
      requires Bookkeeping() == ExecuteAll(e0, env, names[..i], msg)
      modifies this`activePlugins, this`resultQueue, this`loaded, this`moduleTimestamps, this`clock
      ensures Bookkeeping() == ExecuteAll(e0, env, names[..i + 1], msg)
    {
      ExecuteAllStep(e0, env, names, i, msg);
      var _ := ExecutePlugin(pluginName, msg, disk);
    }

    /** The `new_message` callback: the bot's own messages are ignored; `should_handle_message`
        accepts every other one. */
    method OnNewMessage(msg: Message, decode: Decoder, disk: Disk)
      requires Valid()
      modifies this
      ensures Valid()
      ensures msg.senderId == config.botId ==> Bookkeeping() == old(Bookkeeping()) && fallback == old(fallback)
      ensures msg.senderId != config.botId ==>
        var em := Enrich(msg, decode);
        if |msg.tags| > 0 then
          Bookkeeping() == ExecuteAll(old(Bookkeeping()), old(EnvOf(disk)), PluginNames(config.pluginsPath, msg.tags), em)
          && fallback == old(fallback)
        else Bookkeeping() == old(Bookkeeping()) && fallback == old(fallback) + [em]
      ensures state == old(state) && outbox == old(outbox) && devMode == old(devMode) && services == old(services)
    {
      if msg.senderId != config.botId {
        HandleMessage(msg, decode, disk);
      }
    }

    /** `send_message(content)`; every caller checks for a channel first. */
    method SendMessage(content: string)
      requires InChannel(state)
      modifies this
      ensures outbox == old(outbox) + [Post(Current(old(state)), content)]
      ensures state == old(state) && Bookkeeping() == old(Bookkeeping()) && devMode == old(devMode)
      ensures services == old(services) && fallback == old(fallback)
    {
      outbox := outbox + [Post(Current(state), content)];
    }

    /** `check_results()`: takes every queued result, oldest first, and sends each to the
        current channel if there is one. */
    method CheckResults()
      modifies this
      ensures resultQueue == []
      ensures outbox == old(outbox) + Sends(state, old(resultQueue))
      ensures state == old(state) && activePlugins == old(activePlugins) && loaded == old(loaded)
      ensures moduleTimestamps == old(moduleTimestamps) && clock == old(clock)
      ensures devMode == old(devMode) && services == old(services) && fallback == old(fallback)
    {
      ghost var taken: seq<QueuedResult> := [];
      while resultQueue != []
        invariant old(resultQueue) == taken + resultQueue
        invariant outbox == old(outbox) + Sends(state, taken)
        invariant state == old(state) && activePlugins == old(activePlugins) && loaded == old(loaded)
        invariant moduleTimestamps == old(moduleTimestamps) && clock == old(clock)
        invariant devMode == old(devMode) && services == old(services) && fallback == old(fallback)
        decreases |resultQueue|
      {
        var item := resultQueue[0];
        resultQueue := resultQueue[1..];
        if InChannel(state) {
          SendMessage(item.result);
        }
        SendsAppend(state, taken, [item]);
        taken := taken + [item];
      }
      assert taken == old(resultQueue);
    }

    /** `get_active_plugins()`: the records counted by status, and their total. */
    method GetActivePlugins() returns (stats: PluginStats)
      ensures stats.total == |activePlugins|
      ensures stats.active == CountStatus(activePlugins, Running)
      ensures stats.completed == CountStatus(activePlugins, Completed)
      ensures stats.error == CountStatus(activePlugins, Failed)
      ensures stats.active + stats.completed + stats.error == stats.total
    {
      var records := activePlugins;
      var active, completed, error := 0, 0, 0;
      var todo := records.Keys;
      ghost var seen: set<ExecId> := {};
      while todo != {}
        invariant todo <= records.Keys && seen == records.Keys - todo
        invariant PluginStats(active, completed, error, |seen|) == Tally(seen, records)
        invariant active + completed + error == |seen|
        decreases |todo|
      {
        var id :| id in todo;
        TallyAdd(seen, id, records);
        match records[id].status {
          case Running => active := active + 1;
          case Completed => completed := completed + 1;
          case Failed => error := error + 1;
        }
        todo := todo - {id};
        seen := seen + {id};
      }
      assert seen == records.Keys;
      TallyAll(records);
      stats := PluginStats(active, completed, error, |records|);
    }

    /** `/reload` in development mode: re-reads every loaded plugin module that still has a
        file and returns how many it reloaded. */
    method ReloadAll(disk: Disk) returns (count: nat)
      modifies this
      ensures var targets := ReloadTargets(old(loaded), config.pluginsPath + ".", disk);
              count == |targets| && loaded == Reloaded(old(loaded), targets, disk)
      ensures state == old(state) && outbox == old(outbox) && devMode == old(devMode) && services == old(services)
      ensures activePlugins == old(activePlugins) && resultQueue == old(resultQueue)
      ensures moduleTimestamps == old(moduleTimestamps) && clock == old(clock) && fallback == old(fallback)
    {
      var modules;
      modules, count := ReloadModules(loaded, config.pluginsPath + ".", disk);
      loaded := modules;
    }

    /** PluggableBot's `process_command(input_text)`; `disk` is what `/reload` reads. */
    method ProcessCommand(input: string, disk: Disk) returns (outcome: CommandOutcome)
      modifies this
      ensures var r := PluggableReact(config, old(state), old(devMode), input);
        && state == r.state && devMode == r.devMode && outbox == old(outbox) + r.emits && outcome == r.outcome
        && loaded == (if r.reloadAll then Reloaded(old(loaded), ReloadTargets(old(loaded), config.pluginsPath + ".", disk), disk)
                      else old(loaded))
      ensures services == old(services) && activePlugins == old(activePlugins) && resultQueue == old(resultQueue)
      ensures moduleTimestamps == old(moduleTimestamps) && clock == old(clock) && fallback == old(fallback)
    {
      outcome := Continue;
      var parsed := Parse(input);
      if parsed.Blank? {
        return;
      }
      if parsed.Line? {
        if InChannel(state) {
          if !state.isConnected {
            return;
          }
          if IsInactive(state.channelStates, Current(state)) {
            return;
          }
          SendMessage(parsed.text);
        }
        return;
      }
      outcome := RunCommand(parsed.name, parsed.args, disk);
    }

    /** The slash commands of `process_command`. */
    method RunCommand(command: string, args: seq<string>, disk: Disk) returns (outcome: CommandOutcome)
      modifies this
      ensures var r := PluggableCommandReaction(config, old(state), old(devMode), command, args);
        && state == r.state && devMode == r.devMode && outbox == old(outbox) + r.emits && outcome == r.outcome
        && loaded == (if r.reloadAll then Reloaded(old(loaded), ReloadTargets(old(loaded), config.pluginsPath + ".", disk), disk)
                      else old(loaded))
      ensures services == old(services) && activePlugins == old(activePlugins) && resultQueue == old(resultQueue)
      ensures moduleTimestamps == old(moduleTimestamps) && clock == old(clock) && fallback == old(fallback)
    {
      outcome := Continue;
      if command == "join" {
        var target := FirstArgOr(args, config.defaultChannel);
        if !state.isConnected {
          return;
        }
        outbox := outbox + [JoinChannel(target)];
        state := state.(currentChannel := Some(target));
      } else if command == "leave" {
        if !InChannel(state) {
          return;
        }
        if !state.isConnected {
          return;
        }
        outbox := outbox + [LeaveChannel(Current(state))];
        state := state.(currentChannel := None);
      } else if command == "mode" {
        devMode := !devMode;
      } else if command == "reload" {
        if devMode {
          var _ := ReloadAll(disk);
        }
      } else if command == "plugins" {
        var _ := GetActivePlugins();
      } else if command == "exit" {
        if InChannel(state) && state.isConnected {
          outbox := outbox + [LeaveChannel(Current(state))];
        }
        outcome := Exit;
      } else if command !in PluggableCommands {
        outcome := Unhandled(command, args);
      }
    }

    /** The `bot_registered` callback runs `/join general`. */
    method OnBotRegistered(disk: Disk) returns (outcome: CommandOutcome)
      modifies this
      ensures var r := PluggableReact(config, old(state), old(devMode), "/join general");
              state == r.state && outbox == old(outbox) + r.emits && outcome == r.outcome
      ensures devMode == old(devMode) && Bookkeeping() == old(Bookkeeping()) && services == old(services)
      ensures fallback == old(fallback)
    {
      JoinGeneral(config, state, devMode);
      outcome := ProcessCommand("/join general", disk);
    }
  }

  /** One execution in the order the source can run it: the worker finishes before
      `execute_plugin` creates the record. The worker queues its tuple, then its status
      update finds no record and raises `KeyError`, which ends the thread; the record is
      created afterwards, as "running", and stays so. */
  function ExecuteWorkerFirst(e: Engine, env: Env, name: string, msg: Enriched): (r: Engine)
    ensures ExecId(name, e.clock) in r.records && r.records[ExecId(name, e.clock)].status == Running
  {
    var id := ExecId(name, e.clock);
    var l := Load(env.devMode, e.loaded, e.timestamps, env.disk, name);
    var queue := match Run(name, l.code, env.services, msg)
      case Done(v) => e.queue + [QueuedResult(name, v, id)]
      case Caught(t) => e.queue + [QueuedResult(name, "Error: " + t, id)]
      case Crashed => e.queue;
    Engine(e.records[id := ExecRecord(name, Running, None)], queue, l.loaded, l.timestamps, e.clock + 1)
  }

  /** Whenever the worker queues a result before the record exists, the result is sent but
      the record reports the plugin as running for ever, where the intended order settles it. */
  lemma WorkerFirstStrandsRecord(e: Engine, env: Env, name: string, msg: Enriched)
    requires !Run(name, Load(env.devMode, e.loaded, e.timestamps, env.disk, name).code, env.services, msg).Crashed?
    ensures var id := ExecId(name, e.clock);
            var asWritten := ExecuteWorkerFirst(e, env, name, msg);
            var intended := ExecuteStep(e, env, name, msg);
            asWritten.queue == intended.queue
            && asWritten.records[id].status == Running && intended.records[id].status != Running
  {
  }

  /** A concrete case: `plugins.config_handler`, whose `handle_message` returns its text
      without awaiting anything. Being `async`, its worker still sleeps 0.1 seconds before
      queuing the result, so it finishes before the record is written only when the main
      thread stalls that long between starting the thread and writing the record. */
  lemma ConfigPluginStrandsRecord()
    ensures var code := PluginModule(Some(Handler(true, (m: Enriched, d: map<string, ServiceValue>) => Returned("Config handler called"))),
                                     Some(["config", "logger", "queue_manager"]));
            var env := Env(false, map[], map["plugins.config_handler" := SourceFile(code, 1)]);
            var e := Engine(map[], [], map[], map[], 0);
            var msg := Enriched(Message("u", "User", "general", "hi", ["config"], []), [], None);
            var id := ExecId("plugins.config_handler", 0);
            ExecuteWorkerFirst(e, env, "plugins.config_handler", msg).records[id].status == Running
            && ExecuteStep(e, env, "plugins.config_handler", msg).records[id].status == Completed
            && ExecuteStep(e, env, "plugins.config_handler", msg).queue
               == [QueuedResult("plugins.config_handler", "Config handler called", id)]
  {
  }
}
