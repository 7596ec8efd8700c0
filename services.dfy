/** `pluggable_base/services/service_base.py` and `pluggable_base/services/__init__.py`:
    services that may hold the bot's transport client and send chat messages through it,
    a response store and a configuration lookup. Python's subclasses of
    `SocketAwareService` hold their inherited part as a `SocketAwareService` object. */
module Services {

  import opened Wrappers
  import opened Chat

  /** Identity of a transport client (`socketio.Client`). */
  type Transport = nat

  /** A service object as the registry sees it: its class and the transport it holds. */
  datatype ServiceValue = ServiceValue(className: string, socket: Option<Transport>)

  /** `SocketAwareService`: the transport client (if any) and the options it was built
      with. `sent` lists every emit made through it, with the client it went through. */
  class SocketAwareService {
    var socketIo: Option<Transport>
    var options: Option<map<string, string>>
    var sent: seq<(Transport, Emit)>

    /** `__init__(socket_io=None, options=None)`: both stored as given. */
    constructor (socketIo: Option<Transport>, options: Option<map<string, string>>)
      ensures this.socketIo == socketIo && this.options == options && sent == []
    {
      this.socketIo := socketIo;
      this.options := options;
      sent := [];
    }

    /** `set_socket_io(socket_io)`: replaces the client and nothing else. */
    method SetSocketIo(socketIo: Option<Transport>)
      modifies this
      ensures this.socketIo == socketIo
      ensures options == old(options) && sent == old(sent)
    {
      this.socketIo := socketIo;
    }

    /** `send_message(channel_id, content)`: with a client, exactly one `message` emit
        through it and `true`; without, nothing and `false`. */
    method SendMessage(channelId: string, content: string) returns (ok: bool)
      modifies this
      ensures ok <==> old(socketIo).Some?
      ensures socketIo == old(socketIo) && options == old(options)
      ensures sent == if ok then old(sent) + [(socketIo.value, Post(channelId, content))] else old(sent)
    {
      if socketIo.Some? {
        sent := sent + [(socketIo.value, Post(channelId, content))];
        return true;
      }
      return false;
    }
  }

  /** One record of `DatabaseService.responses`. */
  datatype StoredResponse = StoredResponse(timestamp: string, message: string, response: string)

  /** `DatabaseService`: an in-memory list of responses. */
  class DatabaseService {
    const base: SocketAwareService
    var responses: seq<StoredResponse>

    constructor (socketIo: Option<Transport>)
      ensures fresh(base) && base.socketIo == socketIo && base.options.None?
      ensures responses == []
    {
      base := new SocketAwareService(socketIo, None);
      responses := [];
    }

    /** `store_response(timestamp, message, response)`: one record more, at the end. */
    method StoreResponse(timestamp: string, message: string, response: string)
      modifies this
      ensures responses == old(responses) + [StoredResponse(timestamp, message, response)]
    {
      responses := responses + [StoredResponse(timestamp, message, response)];
    }

    /** `get_responses()`: every stored record, oldest first. */
    function GetResponses(): (r: seq<StoredResponse>)
      reads this
      ensures |r| == |responses| && forall i :: 0 <= i < |r| ==> r[i] == responses[i]
    {
      responses
    }
  }

  /** Two responses stored on a fresh database come back in the order they were stored. */
  method StoreTwice(first: StoredResponse, second: StoredResponse) returns (all: seq<StoredResponse>)
    ensures all == [first, second]
  {
    var db := new DatabaseService(None);
    db.StoreResponse(first.timestamp, first.message, first.response);
    db.StoreResponse(second.timestamp, second.message, second.response);
    all := db.GetResponses();
  }

  /** A configuration value: the defaults hold numbers and strings. */
  datatype ConfigValue = Num(n: int) | Str(s: string)

  /** `ConfigService`'s defaults. */
  const ConfigDefaults: map<string, ConfigValue> :=
    map["echo_wait_time" := Num(2), "bot_name" := Str("Enhanced Pluggable Bot"), "log_level" := Str("INFO")]

  /** `ConfigService`: a dictionary of settings. */
  class ConfigService {
    const base: SocketAwareService
    var config: map<string, ConfigValue>

    constructor (socketIo: Option<Transport>)
      ensures fresh(base) && base.socketIo == socketIo && base.options.None?
      ensures config == ConfigDefaults
    {
      base := new SocketAwareService(socketIo, None);
      config := ConfigDefaults;
    }

    /** `get(key, default)`: the stored value, or `default` for a key that is not stored. */
    function GetOr(key: string, default: ConfigValue): (r: ConfigValue)
      reads this
      ensures key in config ==> r == config[key]
      ensures key !in config ==> r == default
    {
      if key in config then config[key] else default
    }

    /** `config[key]` (`__getitem__`): `None` for a key that is not stored. */
    function GetItem(key: string): (r: Option<ConfigValue>)
      reads this
      ensures r.None? <==> key !in config
      ensures r.Some? ==> r.value == config[key]
    {
      Get(config, key)
    }
  }

  /** The two lookups agree: `get(k, d)` is `config[k]` with `d` in place of `None`. */
  lemma GetOrIsGetItem(c: ConfigService, key: string, default: ConfigValue)
    ensures c.GetOr(key, default) == c.GetItem(key).GetOr(default)
  {
  }

  /** A fresh configuration answers the default bot name whatever fallback is given. */
  method DefaultBotName(fallback: ConfigValue) returns (name: ConfigValue)
    ensures name == Str("Enhanced Pluggable Bot")
  {
    var c := new ConfigService(None);
    name := c.GetOr("bot_name", fallback);
  }
}
