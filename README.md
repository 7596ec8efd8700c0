# aido-base-bot core in Dafny

A model of the bookkeeping at the heart of the aido-base-bot chat-bot framework.

- **`BaseBot`** (`base_bot/__init__.py`) is the console chat bot. It keeps a connection record (`current_channel_id`, `is_connected`, `connection_attempts`, `channel_states`). Its socket callbacks update that record, and `process_command` interprets `/join`, `/leave`, `/start`, `/stop`, `/channel`, `/info`, `/messages`, `/exit` and plain text. `EventEmitter` is its listener registry.
- **`PluggableBot`** (`pluggable_base/pluggable.py`) routes each tag of an incoming message to the plugin module `<plugins_path>.<tag>_handler`. For each execution it keeps a record in `active_plugins`, a result queue drained by `check_results`, the hot-reload timestamps, and the service registry. Its `process_command` adds `/mode`, `/reload` and `/plugins`.
- **`EnhancedBot`** (`pluggable_base/pluggable_with_dependencies.py`) adds to `PluggableBot`:
  - merging of default options;
  - class-or-instance service registration;
  - discovery of `<name>_service.py` files;
  - the `/discover` command.
- **The services** (`pluggable_base/services/service_base.py`, `pluggable_base/services/__init__.py`) are `SocketAwareService`, `DatabaseService` and `ConfigService`.
- **The prompt parser of the browser client** (`test.py`) has two parts. `prepare_prompt_json` turns a prompt text of `>>County:`, `>>URL:`, `>>INSTRUCTIONS:` and `#` lines into a map from county to url and instructions. `get_instructions` formats one county's task.

Files:

| File | Contents |
|---|---|
| `wrappers.dfy` | `Option` and `Result` |
| `text.dfy` | Python's `strip`, `split`, `join`, `replace`, `find`, `lower` and `capitalize` on strings |
| `json_block.dfy` | the `[json]…[/json]` search. Decoding is an abstract partial function. |
| `chat.dfy` | the state record, the transport emits, messages and the console-line parse. The two bot classes each carry an identical copy of this code. |
| `base_bot.dfy` | `EventEmitter` and `BaseBot` |
| `services.dfy` | the service classes |
| `pluggable.dfy` | `PluggableBot`, plus the pure `Engine` that specifies its plugin bookkeeping |
| `enhanced.dfy` | `EnhancedBot` |
| `prompt.dfy` | the prompt parser |

How the model represents the system:

- Every transport emit is appended to an `outbox` sequence.
- Each stateful Python object is a Dafny `class` whose methods update its fields in place. Each method is specified against a pure function of the old state: `React`, `PluggableReact`, `ExecuteStep`, `ExecuteAll`, `Sends`, `Step` and `Run`. The properties are proved about those functions.
- Inputs that come from outside the process are parameters:
  - the plugin files (`Disk`: module and modification time per name);
  - the service directory listings and the classes each service file defines (`FileSystem`);
  - the JSON decoder;
  - a plugin handler's behaviour;
  - the response text of `generate_response`;
  - the replies to `get_channel_details`.

Behaviour of the code worth noting:

- Plugins are found only through `importlib.import_module`.
- `channel_states` stores whatever `active` value the server sent. The model represents a non-boolean value as `Unknown`.
- The plugin worker catches only `ImportError` and `AttributeError`. Any other exception ends the worker, and the record stays "running" (`Crashed`).
- The `services/__init__.py` copy of `SocketAwareService` takes no `options`. The `service_base.py` copy stores them. The model has the second form, and the services built from `services/__init__.py` pass `None` for the options.

## Model

| member | source | states |
|---|---|---|
| Text.TrimStart | aido-base-bot/base_bot/__init__.py:461 | the result is a suffix of the input, all of the dropped characters are whitespace, and the result does not start with whitespace |
| Text.TrimEnd | aido-base-bot/base_bot/__init__.py:461 | the result is a prefix of the input, all of the dropped characters are whitespace, and the result does not end with whitespace |
| Text.Strip | aido-base-bot/base_bot/__init__.py:461 | `strip()` is no longer than its input and has no whitespace at either end |
| Text.StripFixed | aido-base-bot/test.py:20 | a string with no whitespace at either end is its own strip |
| Text.StripIdempotent | aido-base-bot/test.py:42 | stripping an already stripped line again changes nothing |
| Text.Split | aido-base-bot/base_bot/__init__.py:465 | `split(c)` yields at least one piece, and no piece contains the separator |
| Text.JoinSplit | aido-base-bot/test.py:19 | joining the pieces of `split('\n')` with the separator gives back the text |
| Text.SplitJoin | aido-base-bot/base_bot/__init__.py:465 | splitting a join of separator-free pieces gives back exactly those pieces |
| Text.SplitFree | aido-base-bot/base_bot/__init__.py:465 | a string without the separator splits into itself |
| Text.SplitPrefix | aido-base-bot/base_bot/__init__.py:465 | a separator-free prefix followed by the separator is the first piece |
| Text.RemoveAll | aido-base-bot/test.py:25 | `replace(tag, '')` never lengthens the string |
| Text.RemoveAllFree | aido-base-bot/test.py:25 | removing a pattern that does not occur changes nothing |
| Text.FindFrom | aido-base-bot/base_bot/__init__.py:301-302 | the search returns the first occurrence at or after the start position, or none when there is none |
| Text.Lower | aido-base-bot/base_bot/__init__.py:466 | `lower()` keeps the length and lower-cases each character |
| Text.Capitalize | aido-base-bot/pluggable_base/pluggable_with_dependencies.py:72 | `capitalize()` upper-cases the first character and lower-cases the rest |
| JsonBlock.MarkersHeadUnique | aido-base-bot/base_bot/__init__.py:301 | neither `[json]` nor `[/json]` contains its own first character a second time |
| JsonBlock.Span | aido-base-bot/base_bot/__init__.py:301-303 | on a match: the first `[json]`, then the first `[/json]` after it, with nothing closer. With no match, no `[json]` is followed by a `[/json]`. |
| JsonBlock.Body | aido-base-bot/base_bot/__init__.py:303 | the captured group, when there is one, is no longer than the content |
| JsonBlock.ExtractJsonBlock | aido-base-bot/base_bot/__init__.py:298-305 | a value is returned only when some `[json]` is followed by a `[/json]`; `ExtractRoundTrip`, `NoOpenNoBlock` and `UnclosedNoBlock` pin the value and the `None` cases |
| JsonBlock.SpanOf | aido-base-bot/base_bot/__init__.py:301-302 | in `pre [json] body [/json] post`, with no `[json]` in `pre` and no `[/json]` in `body`, the match spans exactly `body` |
| JsonBlock.ExtractRoundTrip | aido-base-bot/base_bot/__init__.py:298-305 | such a content captures `body`, and `extract_json_block` returns the decoding of `body` when it is non-empty |
| JsonBlock.NoOpenNoBlock | aido-base-bot/base_bot/__init__.py:302-305 | a content without `[json]` yields no block |
| JsonBlock.UnclosedNoBlock | aido-base-bot/base_bot/__init__.py:302-305 | a `[json]` with no `[/json]` after it yields no block |
| Chat.Parse | aido-base-bot/base_bot/__init__.py:461-467 | the line is blank iff it strips to nothing; it is plain text iff the stripped line does not start with `/`, and the text is the stripped line; command arguments never contain a space |
| Chat.ParseCommandLine | aido-base-bot/base_bot/__init__.py:464-467 | `/name a1 a2 …` written with single spaces parses back into the lower-cased name and exactly those arguments |
| Chat.ParseWithArg | aido-base-bot/base_bot/__init__.py:464-467 | `/name arg` parses into that command with the single argument `arg` |
| Chat.ParseBare | aido-base-bot/base_bot/__init__.py:464-467 | `/name` parses into that command with no arguments |
| Chat.ExtractJsonData | aido-base-bot/base_bot/__init__.py:311-316 | `None` iff `jsonData` is empty, else the value of its first field |
| BaseBotModel.EventEmitter.constructor | aido-base-bot/base_bot/__init__.py:18-20 | a new registry has no events |
| BaseBotModel.EventEmitter.On | aido-base-bot/base_bot/__init__.py:22-25 | the listener is appended to its event's list, which is created if missing; other events are untouched |
| BaseBotModel.EventEmitter.Emit | aido-base-bot/base_bot/__init__.py:27-30 | calls the event's listeners once each, in registration order; an unknown event calls none |
| BaseBotModel.RegistrationOrder | aido-base-bot/base_bot/__init__.py:22-30 | two listeners registered in turn fire in that order |
| BaseBotModel.IsChannelActive | aido-base-bot/base_bot/__init__.py:762-775 | a channel with no entry is active (fail-open); otherwise the channel is active iff its entry is exactly `True` |
| BaseBotModel.ActiveVersusInactive | aido-base-bot/base_bot/__init__.py:773-775 | a channel reported inactive is not active; the two checks disagree exactly on a channel whose reported value is not a boolean |
| BaseBotModel.ShouldRespondTo | aido-base-bot/base_bot/__init__.py:718-723 | false for a channel reported inactive; otherwise true iff the bot id is among the tags |
| BaseBotModel.CommandReaction | aido-base-bot/base_bot/__init__.py:469-620 | each command's guarded transition:<br>- connection fields are never touched;<br>- when disconnected, everything except `/channel` and `/exit` is a no-op;<br>- `/join` emits the join and a details request and sets the channel to `args[0]` or the default channel;<br>- `/leave` and `/stop` need a channel and a connection: `/leave` clears the channel, and `/stop` marks it inactive and keeps it;<br>- `/start` marks its target active;<br>- `/channel` switches the channel locally;<br>- `/info` and `/messages` in a channel while connected request the current channel's details or messages and change nothing;<br>- `/reconnect` and `/help` change nothing and emit nothing;<br>- only `/exit` exits;<br>- unknown commands change nothing |
| BaseBotModel.React | aido-base-bot/base_bot/__init__.py:454-643 | a blank line does nothing; plain text is posted stripped, and only when a channel is set, the bot is connected and the channel was not reported inactive; commands go through `CommandReaction` |
| BaseBotModel.JoinLine | aido-base-bot/base_bot/__init__.py:469-483 | while connected, `/join c` switches to `c` and emits `join_channel c` and then `get_channel_details c` |
| BaseBotModel.LeaveLine | aido-base-bot/base_bot/__init__.py:487-496 | in a channel and connected, `/leave` emits the leave and clears the channel |
| BaseBotModel.JoinThenLeave | aido-base-bot/base_bot/__init__.py:469-496 | `/join c` followed by `/leave` ends with no channel, after emitting exactly join, details and leave |
| BaseBotModel.StopLine | aido-base-bot/base_bot/__init__.py:514-524 | in a channel and connected, `/stop` emits the stop and marks the channel inactive |
| BaseBotModel.StopSilencesText | aido-base-bot/base_bot/__init__.py:622-632 | after `/stop`, a plain line emits nothing |
| BaseBotModel.BaseBot.constructor | aido-base-bot/base_bot/__init__.py:54-59 | the initial state has no channel, is not connected, has no attempts and no channel states, and the outbox is empty |
| BaseBotModel.BaseBot.OnConnect | aido-base-bot/base_bot/__init__.py:114-126 | connected, attempts reset to 0, and one `register` emit with the bot's identity |
| BaseBotModel.BaseBot.OnDisconnect | aido-base-bot/base_bot/__init__.py:135-136 | only `is_connected` becomes false |
| BaseBotModel.BaseBot.OnConnectError | aido-base-bot/base_bot/__init__.py:144-152 | attempts go up by exactly one; the give-up branch is taken iff attempts ≥ the maximum |
| BaseBotModel.BaseBot.OnChannelStatus | aido-base-bot/base_bot/__init__.py:234-239 | stores the reported value for that channel only |
| BaseBotModel.BaseBot.OnChannelStarted | aido-base-bot/base_bot/__init__.py:263-267 | marks that channel active, nothing else |
| BaseBotModel.BaseBot.OnChannelStopped | aido-base-bot/base_bot/__init__.py:275-279 | marks that channel inactive, nothing else |
| BaseBotModel.BaseBot.OnJoinDetails | aido-base-bot/base_bot/__init__.py:478-480 | a details reply is stored only when its `active` is a boolean |
| BaseBotModel.BaseBot.OnInfoDetails | aido-base-bot/base_bot/__init__.py:571-576 | the `/info` reply is stored whatever it holds |
| BaseBotModel.BaseBot.OnNewMessage | aido-base-bot/base_bot/__init__.py:167-172 | a response is scheduled iff the sender is not the bot itself and `should_respond_to` holds |
| BaseBotModel.BaseBot.RespondAfterDelay | aido-base-bot/base_bot/__init__.py:176-214 | nothing is sent when disconnected or when the channel was reported inactive; otherwise exactly one `message` is sent, carrying the response or the x01 error text |
| BaseBotModel.BaseBot.ProcessCommand | aido-base-bot/base_bot/__init__.py:454-643 | the new state, the appended emits and the exit flag are exactly those of `React` |
| BaseBotModel.BaseBot.RunCommand | aido-base-bot/base_bot/__init__.py:469-620 | the new state, the appended emits and the exit flag are exactly those of `CommandReaction` |
| BaseBotModel.BaseBot.OnBotRegistered | aido-base-bot/base_bot/__init__.py:287-296 | without `autojoin_channel` nothing changes; with it, the bot does what `/join <channel>` does |
| Services.SocketAwareService.constructor | aido-base-bot/pluggable_base/services/service_base.py:3-5 | stores `socket_io` and `options` as given |
| Services.SocketAwareService.SetSocketIo | aido-base-bot/pluggable_base/services/service_base.py:7-9 | replaces the socket and nothing else |
| Services.SocketAwareService.SendMessage | aido-base-bot/pluggable_base/services/service_base.py:11-19 | returns true iff a socket is attached; then exactly one `message{channelId, content}` goes through that socket, otherwise nothing is sent |
| Services.DatabaseService.constructor | aido-base-bot/pluggable_base/services/__init__.py:50-52 | starts with an empty response log and the given socket |
| Services.DatabaseService.StoreResponse | aido-base-bot/pluggable_base/services/__init__.py:58-64 | appends exactly one record at the end; earlier records are unchanged |
| Services.DatabaseService.GetResponses | aido-base-bot/pluggable_base/services/__init__.py:71-73 | returns every stored record in insertion order |
| Services.StoreTwice | aido-base-bot/pluggable_base/services/__init__.py:58-73 | two records stored on a fresh database come back in the order they were stored |
| Services.ConfigService.constructor | aido-base-bot/pluggable_base/services/__init__.py:77-84 | starts from the three defaults |
| Services.ConfigService.GetOr | aido-base-bot/pluggable_base/services/__init__.py:90-92 | `get(k, d)` is the stored value, or `d` when `k` is missing |
| Services.ConfigService.GetItem | aido-base-bot/pluggable_base/services/__init__.py:94-96 | `config[k]` is `None` iff `k` is missing, else the stored value |
| Services.GetOrIsGetItem | aido-base-bot/pluggable_base/services/__init__.py:90-96 | the two lookups agree: `get(k, d)` is `config[k]` with `d` in place of `None` |
| Services.DefaultBotName | aido-base-bot/pluggable_base/services/__init__.py:80-92 | a fresh configuration answers "Enhanced Pluggable Bot" whatever fallback is given |
| Pluggable.OptionOr | aido-base-bot/pluggable_base/pluggable.py:26-35 | each configuration key is the caller's option when given, else its default |
| Pluggable.ConfigFromOptions | aido-base-bot/pluggable_base/pluggable.py:26-35 | each of the bot id, name, type, default channel and plugins path is the caller's option when given, else `pluggable-bot`, `Pluggable Bot`, `pluggable`, `general` and `plugins`; the converted attempt limit is kept |
| Pluggable.PluginName | aido-base-bot/pluggable_base/pluggable.py:201 | the module name is the plugins path, a dot, the tag and `_handler`, so its length is fixed by theirs; `PluginNameInjective` and `PluginNameInReloadScope` follow |
| Pluggable.PluginNameInjective | aido-base-bot/pluggable_base/pluggable.py:201 | different tags route to different plugin modules |
| Pluggable.PluginNameInReloadScope | aido-base-bot/pluggable_base/pluggable.py:585-586 | every plugin module name starts with the `<plugins_path>.` prefix that `/reload` scans |
| Pluggable.PluginNames | aido-base-bot/pluggable_base/pluggable.py:200-201 | one module name per tag, in tag order |
| Pluggable.JsonValues | aido-base-bot/pluggable_base/pluggable.py:495-503 | one value per `jsonData` field |
| Pluggable.ExtractJsonDataAsArray | aido-base-bot/pluggable_base/pluggable.py:495-503 | the loop returns the `jsonData` values in field order, and `[]` when there are none |
| Pluggable.JsonDataIsFirstValue | aido-base-bot/pluggable_base/pluggable.py:488-503 | `extract_json_data` is present iff the array is non-empty, and is then the array's first element |
| Pluggable.Enrich | aido-base-bot/pluggable_base/pluggable.py:190-194 | the message passed on carries its `jsonArray` and `jsonBlock` |
| Pluggable.Dependencies | aido-base-bot/pluggable_base/pluggable.py:286-294 | exactly the requested names that are registered, each with its registered service; missing names are omitted |
| Pluggable.Load | aido-base-bot/pluggable_base/pluggable.py:266-278 | the module half of one execution:<br>- only the named module and its timestamp change;<br>- stored times never decrease;<br>- `ImportError` iff the module is neither loaded nor on disk;<br>- a hot reload returns the file's module and stores its time;<br>- outside dev mode no time is stored |
| Pluggable.Run | aido-base-bot/pluggable_base/pluggable.py:280-397 | the call half of one execution:<br>- a missing module is caught with the `No module named` text;<br>- a module without `handle_message` is caught with the attribute-error text;<br>- otherwise the handler runs with the dependencies when it takes `deps`;<br>- an `ImportError` or `AttributeError` it raises is caught;<br>- any other exception ends the worker |
| Pluggable.Settle | aido-base-bot/pluggable_base/pluggable.py:389-402 | a result queues one tuple and marks the record "completed"; a caught error queues `Error: …` and marks the record "error" with the text; a dead worker changes nothing; other records are untouched |
| Pluggable.ExecuteStep | aido-base-bot/pluggable_base/pluggable.py:211-234 | one execution:<br>- creates a record under a fresh id carrying the plugin name;<br>- keeps every other record;<br>- queues at most one tuple, and does so exactly when the record leaves "running";<br>- the tuple carries this execution's id;<br>- an "error" record's text is what was queued |
| Pluggable.ExecuteAll | aido-base-bot/pluggable_base/pluggable.py:199-206 | the tag loop, one `ExecuteStep` per plugin name in order: the clock advances once per name and the queue is only appended to, at most one result per name; `ExecuteAllRecords` and `ExecuteAllQueueOrder` say which results |
| Pluggable.ExecuteAllKeeps | aido-base-bot/pluggable_base/pluggable.py:199-206 | running a list of plugins advances the clock once per plugin, keeps earlier records, and only appends to the queue, at most one result per plugin |
| Pluggable.ExecuteAllRecords | aido-base-bot/pluggable_base/pluggable.py:199-206 | the i-th tag's execution has its own record, under its own plugin name |
| Pluggable.ExecuteAllQueueStamps | aido-base-bot/pluggable_base/pluggable.py:199-206 | every result a run queues belongs to one of that run's executions |
| Pluggable.ExecuteAllQueueOrder | aido-base-bot/pluggable_base/pluggable.py:199-206 | in the model, where each execution runs to its end before the next tag's starts, the results a run queues are in the order their executions started (the source's order differs: see Left out) |
| Pluggable.Sends | aido-base-bot/pluggable_base/pluggable.py:408-425 | one `message` per queued result, in queue order, to the current channel; nothing when no channel is set |
| Pluggable.SendsAppend | aido-base-bot/pluggable_base/pluggable.py:408-425 | draining in two rounds sends what draining once sends, so draining an empty queue sends nothing extra |
| Pluggable.CountInAdd | aido-base-bot/pluggable_base/pluggable.py:433-440 | counting one more record raises only the count of its status, by one |
| Pluggable.TallyAdd | aido-base-bot/pluggable_base/pluggable.py:433-446 | one more record bumps its status count and the total |
| Pluggable.TallyAll | aido-base-bot/pluggable_base/pluggable.py:427-447 | the counts over all keys are the per-status counts and the size of `active_plugins` |
| Pluggable.PluggableCommandReaction | aido-base-bot/pluggable_base/pluggable.py:545-626 | each command's transition:<br>- connection fields and channel states are never touched;<br>- only `/mode` flips dev mode;<br>- a reload happens iff `/reload` is given in dev mode;<br>- only `/exit` exits;<br>- an unknown command goes to `handle_custom_command`;<br>- `/join` emits only the join;<br>- `/leave` needs a channel and a connection |
| Pluggable.PluggableReact | aido-base-bot/pluggable_base/pluggable.py:535-645 | a non-command leaves the state and dev mode unchanged; plain text is sent only under the same three conditions as in BaseBot |
| Pluggable.ModeLine | aido-base-bot/pluggable_base/pluggable.py:575-577 | the line `/mode` is the `mode` command |
| Pluggable.ModeTwice | aido-base-bot/pluggable_base/pluggable.py:575-577 | `/mode` flips dev mode, and doing it twice restores the bot with no emits |
| Pluggable.ReloadNeedsDevMode | aido-base-bot/pluggable_base/pluggable.py:583-597 | outside dev mode `/reload` reloads nothing and changes nothing |
| Pluggable.JoinEmitsOnlyJoin | aido-base-bot/pluggable_base/pluggable.py:545-552 | PluggableBot's `/join c` emits just `join_channel c` |
| Pluggable.JoinGeneral | aido-base-bot/pluggable_base/pluggable.py:164 | the auto-join line is the `join` command for "general" |
| Pluggable.ReloadTargets | aido-base-bot/pluggable_base/pluggable.py:585-592 | the modules reloaded are exactly the loaded ones under the prefix whose file can be re-read |
| Pluggable.Reloaded | aido-base-bot/pluggable_base/pluggable.py:585-589 | after the reload, the same modules are loaded; each target is re-read from its file and the rest are unchanged |
| Pluggable.ReloadedPointwise | aido-base-bot/pluggable_base/pluggable.py:585-589 | a module table that agrees with the reload on every key is the reload's result |
| Pluggable.ReloadIdempotent | aido-base-bot/pluggable_base/pluggable.py:581-594 | reloading twice from the same files is reloading once |
| Pluggable.ReloadModules | aido-base-bot/pluggable_base/pluggable.py:585-592 | the loop over `sys.modules` re-reads exactly `ReloadTargets`, leaves the table as `Reloaded` says, and counts the targets |
| Pluggable.PluggableBot.constructor | aido-base-bot/pluggable_base/pluggable.py:23-68 | the given configuration and dev mode, the initial state, an empty registry, no records, an empty queue, no timestamps |
| Pluggable.PluggableBot.OnConnect | aido-base-bot/pluggable_base/pluggable.py:87-97 | connected, attempts reset, one `register` emit; nothing else changes |
| Pluggable.PluggableBot.OnDisconnect | aido-base-bot/pluggable_base/pluggable.py:106-107 | only `is_connected` becomes false |
| Pluggable.PluggableBot.OnConnectError | aido-base-bot/pluggable_base/pluggable.py:115-123 | attempts go up by one; the give-up branch is taken iff attempts ≥ the maximum |
| Pluggable.PluggableBot.OnChannelStatus | aido-base-bot/pluggable_base/pluggable.py:146-151 | stores the reported value for that channel only |
| Pluggable.PluggableBot.RegisterService | aido-base-bot/pluggable_base/pluggable.py:731-735 | stores the service under its name, replacing any earlier one, and returns it; `get_service` then returns it |
| Pluggable.PluggableBot.GetService | aido-base-bot/pluggable_base/pluggable.py:737-741 | fails with `KeyError("Service not found: n")` iff the name is not registered, else returns the service |
| Pluggable.PluggableBot.HasService | aido-base-bot/pluggable_base/pluggable.py:743-745 | true exactly when `get_service` succeeds |
| Pluggable.PluggableBot.ResolveDependencies | aido-base-bot/pluggable_base/pluggable.py:286-294 | the loop builds exactly the map `Dependencies` describes |
| Pluggable.PluggableBot.ShouldReloadModule | aido-base-bot/pluggable_base/pluggable.py:236-261 | says yes only in dev mode, for a loaded module whose file is newer than its stored time (0 when none is stored), and only then stores the new time; stored times never decrease |
| Pluggable.ShouldReload | aido-base-bot/pluggable_base/pluggable.py:236-261 | yes only in dev mode for a loaded module with a readable file; a file no newer than its stored time, such as one whose time was just stored, is never reloaded again |
| Pluggable.PluggableBot.LoadPlugin | aido-base-bot/pluggable_base/pluggable.py:266-278 | the module, `sys.modules` and timestamps end as `Load` says; no other field changes |
| Pluggable.PluggableBot.RunPlugin | aido-base-bot/pluggable_base/pluggable.py:280-387 | the outcome is that of `Run` |
| Pluggable.PluggableBot.ExecutePlugin | aido-base-bot/pluggable_base/pluggable.py:211-234 | returns the new execution id; the bookkeeping becomes `ExecuteStep` of the old bookkeeping, and nothing else changes |
| Pluggable.PluggableBot.SettleRecord | aido-base-bot/pluggable_base/pluggable.py:389-402 | the bookkeeping becomes `Settle` of the old bookkeeping |
| Pluggable.PluggableBot.HandleMessage | aido-base-bot/pluggable_base/pluggable.py:187-209 | with tags, one execution per tag in tag order and no fallback call; without tags, exactly one fallback call; the message carries its JSON fields either way |
| Pluggable.PluggableBot.DispatchTags | aido-base-bot/pluggable_base/pluggable.py:199-206 | the loop over the tags runs `ExecuteAll` over their plugin names; its frame lets only the bookkeeping fields change |
| Pluggable.PluggableBot.ExecuteNext | aido-base-bot/pluggable_base/pluggable.py:199-203 | one pass of the tag loop: the bookkeeping after `i + 1` tags is `ExecuteAll` over the first `i + 1` plugin names |
| Pluggable.PluggableBot.OnNewMessage | aido-base-bot/pluggable_base/pluggable.py:131-141 | the bot's own messages change nothing; every other message is handled as `handle_message` says |
| Pluggable.PluggableBot.SendMessage | aido-base-bot/pluggable_base/pluggable.py:651-657 | one `message` emit to the current channel |
| Pluggable.PluggableBot.CheckResults | aido-base-bot/pluggable_base/pluggable.py:404-425 | the queue is drained to empty, FIFO, and the outbox grows by exactly `Sends` of the old queue |
| Pluggable.PluggableBot.GetActivePlugins | aido-base-bot/pluggable_base/pluggable.py:427-447 | per-status counts, a total equal to the number of records, and the three counts sum to the total |
| Pluggable.PluggableBot.ReloadAll | aido-base-bot/pluggable_base/pluggable.py:583-594 | reloads exactly `ReloadTargets`, leaves the module table as `Reloaded` says, and returns the number reloaded |
| Pluggable.PluggableBot.ProcessCommand | aido-base-bot/pluggable_base/pluggable.py:535-645 | state, dev mode, emits, outcome and reloaded modules are exactly those of `PluggableReact` |
| Pluggable.PluggableBot.RunCommand | aido-base-bot/pluggable_base/pluggable.py:545-626 | the same for `PluggableCommandReaction` |
| Pluggable.PluggableBot.OnBotRegistered | aido-base-bot/pluggable_base/pluggable.py:159-164 | the bot does what `/join general` does |
| Pluggable.ExecuteWorkerFirst | aido-base-bot/pluggable_base/pluggable.py:217-229 | as written, in the order where the worker finishes before the record is created, the record is left "running" |
| Pluggable.WorkerFirstStrandsRecord | aido-base-bot/pluggable_base/pluggable.py:217-229 | in that order the same result is queued, but the record stays "running", where the intended order settles it |
| Pluggable.ConfigPluginStrandsRecord | aido-base-bot/pluggable_base/pluggable.py:217-229 | concretely: `plugins.config_handler`, which returns "Config handler called" without awaiting, is left "running" as written when its worker finishes before the record is written (after a stall of at least 0.1 seconds, see Findings), and is "completed" with its result queued as intended |
| Enhanced.Merged | aido-base-bot/pluggable_base/pluggable_with_dependencies.py:27-32 | keys the caller supplied keep their values; default keys are added only when absent; no other key appears |
| Enhanced.JoinPathEnds | aido-base-bot/pluggable_base/pluggable_with_dependencies.py:21-23 | `os.path.join(a, b)` starts with `a` and ends with `b` |
| Enhanced.DefaultOptions | aido-base-bot/pluggable_base/pluggable_with_dependencies.py:20-24 | exactly the three path keys, each below the base path and ending in `plugins`, `services` or `config` |
| Enhanced.MergeIdempotent | aido-base-bot/pluggable_base/pluggable_with_dependencies.py:27-32 | merging the defaults a second time changes nothing |
| Enhanced.MergeOptions | aido-base-bot/pluggable_base/pluggable_with_dependencies.py:27-32 | the merge loop, including the empty-options branch, computes `Merged` |
| Enhanced.Registered | aido-base-bot/pluggable_base/pluggable_with_dependencies.py:109-125 | a class is instantiated with the bot's socket; an instance is stored as-is, and handed the socket first when it has `set_socket_io` |
| Enhanced.ServiceNameRoundTrip | aido-base-bot/pluggable_base/pluggable_with_dependencies.py:57-58 | `<name>_service.py` is accepted and, with its last 11 characters removed, gives back `name` |
| Enhanced.ServiceNameOf | aido-base-bot/pluggable_base/pluggable_with_dependencies.py:58 | the file name with its 11-character `_service.py` suffix cut off |
| Enhanced.ServiceClassName | aido-base-bot/pluggable_base/pluggable_with_dependencies.py:72 | the expected class name is the service name's length plus seven, ending in `Service`; `ServiceClassNameOfLower` gives its spelling |
| Enhanced.ServiceClassNameOfLower | aido-base-bot/pluggable_base/pluggable_with_dependencies.py:72 | a lower-case service name expects the class named by its first letter in upper case, the rest unchanged, then `Service` (so `weather` expects `WeatherService`) |
| Enhanced.CountProviders | aido-base-bot/pluggable_base/pluggable_with_dependencies.py:76 | the count never exceeds the number of files |
| Enhanced.WithDiscovered | aido-base-bot/pluggable_base/pluggable_with_dependencies.py:72-75 | each discovered name maps to its class instantiated with the socket; other entries are unchanged; the key set grows only by the discovered names |
| Enhanced.RediscoverIdempotent | aido-base-bot/pluggable_base/pluggable_with_dependencies.py:112 | discovering the same directory again changes nothing, so no entry is duplicated |
| Enhanced.CountStep | aido-base-bot/pluggable_base/pluggable_with_dependencies.py:56-76 | one more file raises the count by one exactly when it provides a service |
| Enhanced.NamesStep | aido-base-bot/pluggable_base/pluggable_with_dependencies.py:56-75 | one more file adds its service name exactly when it provides a service |
| Enhanced.WithDiscoveredAdd | aido-base-bot/pluggable_base/pluggable_with_dependencies.py:75 | registering one more discovered name is one more map update |
| Enhanced.EnhancedBot.constructor | aido-base-bot/pluggable_base/pluggable_with_dependencies.py:17-100 | merged options configure the bot; the bot is named after the configuration service's "Enhanced Pluggable Bot"; the registry is the five set-up services plus what discovery over the merged `services_path` finds (only the set-up services when that directory is missing); no plugin records, results, modules or fallback calls |
| Enhanced.EnhancedBot.SetUpServices | aido-base-bot/pluggable_base/pluggable_with_dependencies.py:90-97 | registers the logger, database, configuration, browser and queue services in that order, each instantiated with the client, and changes nothing but the registry |
| Enhanced.EnhancedBot.RegisterService | aido-base-bot/pluggable_base/pluggable_with_dependencies.py:102-125 | stores `Registered` under the name and overwrites an existing name without adding a key; the return value equals `services[name]` |
| Enhanced.EnhancedBot.DiscoverServices | aido-base-bot/pluggable_base/pluggable_with_dependencies.py:44-88 | a missing directory registers nothing and returns nothing; otherwise exactly the files whose module defines their class are registered, and their number is returned |
| Enhanced.EnhancedBot.DiscoverNext | aido-base-bot/pluggable_base/pluggable_with_dependencies.py:56-79 | one pass of the discovery loop: the registry holds the services of the first `i + 1` files, and the file counts iff it provides one |
| Enhanced.EnhancedBot.DiscoverFile | aido-base-bot/pluggable_base/pluggable_with_dependencies.py:57-79 | a file is registered iff it ends in `_service.py` and its module defines the expected class |
| Enhanced.EnhancedBot.ProcessCommand | aido-base-bot/pluggable_base/pluggable_with_dependencies.py:127-135 | PluggableBot's command processing, with `/discover [dir]` handled (a discovery in `dir` or the default directory); every other unknown command stays unhandled and leaves the registry alone; `/reload` in dev mode reloads exactly the loaded plugin modules that have a file, as `Reloaded` states, and time stamps, clock, executions and queue are untouched |
| PromptFile.Flush | aido-base-bot/test.py:48-49 | the final flush stores the newline-joined buffer into the current county when both are truthy, and changes nothing else; it raises `UnboundLocalError` when the buffer was never bound |
| PromptFile.TagValue | aido-base-bot/test.py:25 | the value after a tag is no longer than the line and has no whitespace at either end; `TagValueOf` reads it back exactly |
| PromptFile.Step | aido-base-bot/test.py:22-46 | one pass of the loop, its branches in the source's order; `StepByKind`, `StepErrors` and `StepCounties` state what each kind of line does |
| PromptFile.StepCounties | aido-base-bot/test.py:22-46 | a step never drops a county, and only a county line adds one |
| PromptFile.Run | aido-base-bot/test.py:19-46 | the loop over the lines, stopping at the first exception; `RunValid`, `RunAppend`, `ErrorIsFinal` and `RunCounties` state its properties |
| PromptFile.RunCounties | aido-base-bot/test.py:19-46 | the loop never drops a county, and lines without a county line add none |
| PromptFile.ParseLines | aido-base-bot/test.py:19-49 | the loop and the final flush; `CountyRoundTrip`, `UrlBeforeCounty` and `TextBeforeInstructions` give its result and its exceptions |
| PromptFile.PromptJson | aido-base-bot/test.py:19-51 | `prompt_json` of the text split at newlines; `CommentLineInText` and `NoCountyNoData` state its properties |
| PromptFile.NoCountyNoData | aido-base-bot/test.py:19-51 | a prompt text without a county line gives an empty `prompt_json` when it does not raise |
| PromptFile.TagHead | aido-base-bot/test.py:24-31 | a line starting with a tag has the tag's first and third characters |
| PromptFile.TagsExclusive | aido-base-bot/test.py:22-31 | no line starts with two different tags, nor with `#` and a tag |
| PromptFile.StepByKind | aido-base-bot/test.py:22-46 | the source's chain of branches does, for each kind of line, what `Effect` describes |
| PromptFile.StepErrors | aido-base-bot/test.py:28-46 | from a reachable state, a line raises iff it is a url line before any county (`KeyError`, and only then) or a text line while the buffer is unbound (`UnboundLocalError`) |
| PromptFile.StepValid | aido-base-bot/test.py:19-46 | every step keeps the parser reachable: instruction mode has a bound buffer, and the current county has an entry |
| PromptFile.RunValid | aido-base-bot/test.py:19-46 | every run from a reachable state stays reachable |
| PromptFile.UrlKeepsMode | aido-base-bot/test.py:28-30 | `>>URL: u` sets the current county's url and changes neither the mode nor the buffer |
| PromptFile.BlankLines | aido-base-bot/test.py:41-44 | a blank line is appended in instruction mode and skipped outside it |
| PromptFile.CountyInMode | aido-base-bot/test.py:35-40 | in instruction mode, a county line stores the buffer into the previous county, starts the new county with an empty entry, and ends the mode |
| PromptFile.BufferCarriesOver | aido-base-bot/test.py:38-49 | the buffer is not reset on a new county, so a county with no instructions of its own receives the previous county's instructions at the final flush |
| PromptFile.RunAppend | aido-base-bot/test.py:19-46 | reading `a + b` is reading `a` and then `b`; an exception in `a` ends the run |
| PromptFile.ErrorIsFinal | aido-base-bot/test.py:19-49 | once an exception is raised, no later line matters |
| PromptFile.CommentIgnored | aido-base-bot/test.py:22-23 | a comment line anywhere in the input does not change the result |
| PromptFile.CommentLineInText | aido-base-bot/test.py:19-23 | the same holds for the prompt text: dropping a comment line leaves `prompt_json` unchanged |
| PromptFile.TagValueOf | aido-base-bot/test.py:25 | the value after a tag is read back exactly |
| PromptFile.TagLine | aido-base-bot/test.py:20-29 | `tag value` survives `strip()` and is read as that tag with that value |
| PromptFile.PlainKind | aido-base-bot/test.py:41-46 | a non-blank line starting with neither `#` nor `>` is a text line |
| PromptFile.PlainStep | aido-base-bot/test.py:41-42 | in instruction mode a plain line goes into the buffer as it is |
| PromptFile.ReadInstructions | aido-base-bot/test.py:41-42 | in instruction mode, a sequence of plain lines appends exactly those lines to the buffer |
| PromptFile.RunOne | aido-base-bot/test.py:19-20 | a one-line input is one step on the stripped line |
| PromptFile.RunFirst | aido-base-bot/test.py:19-20 | the first line's step is followed by the rest of the run |
| PromptFile.OpenCounty | aido-base-bot/test.py:24-27 | outside instruction mode, `>>County: c` creates an empty entry under `c` and makes it the current county |
| PromptFile.SetUrl | aido-base-bot/test.py:28-30 | once a county is started, `>>URL: u` sets its url to `u` |
| PromptFile.InstructionsKind | aido-base-bot/test.py:31 | the instructions tag is read as such |
| PromptFile.OpenInstructions | aido-base-bot/test.py:31-33 | `>>INSTRUCTIONS:` empties the buffer and enters instruction mode |
| PromptFile.CountyHeader | aido-base-bot/test.py:24-33 | the three header lines start the county, set its url and enter instruction mode with an empty buffer |
| PromptFile.FlushCounty | aido-base-bot/test.py:48-49 | the final flush stores the lines read, or nothing when there are none |
| PromptFile.CountyRoundTrip | aido-base-bot/test.py:19-51 | a county written as county, url and instructions lines parses back into exactly that county, url and instructions |
| PromptFile.UrlBeforeCounty | aido-base-bot/test.py:28-30 | a url before any county raises `KeyError`, whatever follows |
| PromptFile.TextBeforeInstructions | aido-base-bot/test.py:45-46 | a text line after a county and before any `>>INSTRUCTIONS:` raises `UnboundLocalError`, whatever follows |
| PromptFile.Render | aido-base-bot/test.py:66-72 | the formatted task carries the account flag, the url and the instructions at fixed offsets |
| PromptFile.PromptClient.constructor | aido-base-bot/test.py:8-9 | holds the given prompt text, with `prompt_json` starting as an empty map |
| PromptFile.PromptClient.PreparePromptJson | aido-base-bot/test.py:11-52 | on success `prompt_json` is the parsed text; on an exception `prompt_json` keeps its value and the exception is returned |
| PromptFile.PromptClient.GetInstructions | aido-base-bot/test.py:54-74 | `None` unless `x_county` is non-empty and names a county whose url and instructions are both non-empty; otherwise the result contains the account flag, that url and those instructions |
| PromptFile.ReadLine | aido-base-bot/test.py:20-46 | one loop iteration yields exactly `Step`'s new locals, or the exception `Step` raises |
| PromptFile.FlushInto | aido-base-bot/test.py:48-49 | raises exactly when `Flush` fails, and with the same exception |

## Left out

- Concurrency:
  - the plugin worker threads, `eventlet.spawn`, the thread pool, per-plugin asyncio loops, task cancellation and `gc.collect`, and BaseBot's delayed-response thread;
  - an execution is modelled as running to its end inside `execute_plugin`, and `check_results` drains the queue whenever it is called;
  - the race between the worker and the record write is the one ordering shown, under Findings.
- Random delay and sleeps:
  - the 1–3 second random delay before a response, `eventlet.sleep`, `time.sleep`;
  - the 0.1 second `asyncio.sleep` that the worker runs after an `async` handler returns, before it queues the result and writes the status;
  - the float elapsed times that `check_results` and `/plugins` print.
- Dynamic loading and reflection, which become the `Disk` table and abstract handler functions:
  - `importlib` (`import_module`, `reload`, `spec_from_file_location`, `exec_module`);
  - `inspect.signature`;
  - `asyncio.iscoroutinefunction`: sync and async handlers give the same results and the same records here, and the difference in timing between them (the 0.1 second sleep of the async path) is not modelled;
  - the scan of module globals for a `BaseBotShaken` to clean up.
- Service discovery: the `sys.path` insert and pop, the `Exception` catch-all around a failing service module (such a file simply provides no class), and `/discover` with no argument in a process whose application path differs from the bot's `basePath`.
- Output:
  - `print_message`, `display_prompt`, `show_help`, timestamps;
  - the printouts of `/channel` with no argument, `/info`, `/messages` and `/plugins`.
- BaseBotModel.BaseBot: calls to the local `self.emit(...)` listeners from BaseBot's callbacks are not connected to `EventEmitter`, which is modelled on its own. The callbacks for `control_command`, `participant_joined`, `participant_left` and the `channel_*` events only print and notify listeners apart from the state updates modelled.
- BaseBotModel.BaseBot.RespondAfterDelay: the `message["json"]` enrichment is left out, and `generate_response` is an input.
- The transport:
  - `socket.connect` and `disconnect` behind `/reconnect` and `/exit`;
  - `sys.exit`, signal handling and `cleanup_and_exit`'s executor shutdown;
  - the `input()` loop and `start`;
  - `/exit` is an outcome, and its `leave_channel` emit is modelled.
- Construction:
  - environment variables (`load_dotenv`, `BOT_DEV_MODE`, `BOT_ID` and the rest), which arrive as constructor parameters;
  - `ConfigurableApp`;
  - `int()` conversion of `max_reconnect_attempts`.
- Service classes are assumed to construct: `Registered` stores an instance for every class. As written, `setup_services` registers `BaseBotShaken`, whose `__init__` calls `SocketAwareService.__init__(self, socket_io, options)` on the class from `services/__init__.py`, which takes only `socket_io`; so `EnhancedBot.__init__` raises `TypeError` there, before `discover_services`, while `Enhanced.EnhancedBot.constructor` promises all five services and the discovery.
- Enhanced.EnhancedBot.DiscoverServices: `FileSystem` records only directories that exist and their listings, so a path that exists but is not a directory is not expressed. For `/discover <existing file>` the source passes `os.path.exists` and then `os.listdir` raises `NotADirectoryError`, which nothing catches; the model answers `None` as for a missing directory.
- Plugin lookup under EnhancedBot: its default `plugins_path` is a file-system path (`os.path.join(base_path, "plugins")`), so `PluginName` yields a name such as `/app/plugins.echo_handler` that `import_module` cannot resolve, and every tag then fails with "No module named ...". `Disk` accepts any string as a module name, so the model does not show that failure.
- Pluggable.ExecuteAllQueueOrder: holds only for the sequential model. In the source each execution runs on its own thread, and `result_queue` is filled in the order the workers finish: `plugins.echo_handler` sleeps for `echo_wait_time` seconds, 1 by default, so for the tags `echo` and `config` the config result is queued, and sent by `check_results` (pluggable.py:408-425), first.
- Missing parent package: `Disk` maps full module names to files and cannot express a package that is itself absent. For a missing module the model's error text is always `No module named '<full module name>'`, while `import_module` names the first missing package, e.g. `No module named 'plugins'` when there is no `plugins` package, or `No module named '/app/plugins'` under EnhancedBot's default `plugins_path`.
- Execution ids: the source forms them from the plugin name and a microsecond time stamp. The model stamps them from a counter, so two executions never share an id.
- JSON: `json.loads` is an abstract partial `Decoder`, and a decoded value whose JSON is falsy is not distinguished.
- The float `ECHO_WAIT_TIME` environment override in `ConfigService`, `LoggerService` (the `logging` module), and `DatabaseService.info`'s print.
- PromptFile.PromptClient.constructor: where the base class sets `prompt_text` and `prompt_json` up is not part of this model; the model starts from an empty map.
- test.py: the rest of `TestBrowserClient` (browser automation, `should_respond_to` that always says no, the module-level bot start).
- Text.Lower, Text.Capitalize: only ASCII letters change case; Python's Unicode case mapping is not modelled.
- Text.RemoveAll: its contract bounds only the length; exact results are proved where the model needs them (`RemoveAllFree`, `PromptFile.RemoveTag`).
- Enhanced.CountProviders: its own contract states only the bound; its meaning is stated by `EnhancedBot.DiscoverServices`, whose loop counts the files that `Provides` accepts.

## Findings

| source | as written | input that shows it | evidently intended | confidence | as-written member | corrected member |
|---|---|---|---|---|---|---|
| aido-base-bot/pluggable_base/pluggable.py:217-229 | `execute_plugin` starts the worker thread (line 222) before it writes the `active_plugins[execution_id]` record (line 225). A worker that finishes first queues its result, then fails with `KeyError` on the missing record at line 393, and the record written afterwards says "running" for ever. | the plugin `plugins.config_handler` (plugins/config_handler.py:13-19), whose `handle_message` returns "Config handler called" without awaiting anything. Its `handle_message` is `async def`, so the worker also runs the 0.1 second `asyncio.sleep` of pluggable.py:338 before it queues the result (line 390) and writes the status (line 393): it finishes first only when the main thread is held off for at least 0.1 seconds between lines 222 and 225 (a loaded machine, a GIL hand-over, a pause in a debugger). A synchronous handler skips that sleep and needs no such stall; no shipped plugin has one | the record exists before the worker can touch it, so that every finished execution is "completed" or "error" | not executed | Pluggable.ExecuteWorkerFirst, Pluggable.WorkerFirstStrandsRecord, Pluggable.ConfigPluginStrandsRecord | Pluggable.ExecuteStep |
