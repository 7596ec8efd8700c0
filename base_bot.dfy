/** `base_bot/__init__.py`: the listener registry `EventEmitter` and the console chat bot
    `BaseBot`, whose socket callbacks and console commands update `self.state` and emit
    events on the transport. Each emit is appended to `outbox`; console output is not
    modelled. */
module BaseBotModel {

  import opened Wrappers
  import opened Text
  import opened JsonBlock
  import opened Chat

  /** Identity of a registered callback. */
  type Listener = nat

  /** `EventEmitter`: event name to the listeners registered for it, in registration order.
      Its `__init__` hands `options` on to the next class in the method resolution order, so
      the source can only build it as a base of `BaseBot`, where `ConfigurableApp` takes that
      call; built on its own, `object.__init__` would raise `TypeError`. The constructor here
      models only the registry that `__init__` sets up. */
  class EventEmitter {
    var events: map<string, seq<Listener>>

    constructor ()
      ensures events == map[]
    {
      events := map[];
    }

    /** The listeners `emit(event)` calls, in order. */
    function Listeners(event: string): seq<Listener>
      reads this
    {
      if event in events then events[event] else []
    }

    /** `on(event, listener)`: appends the listener to that event's list, creating the list
        on first use. */
    method On(event: string, listener: Listener)
      modifies this
      ensures events == old(events)[event := old(Listeners(event)) + [listener]]
    {
      if event !in events {
        events := events[event := []];
      }
      events := events[event := events[event] + [listener]];
    }

    /** `emit(event)`: calls every listener of `event` once, in registration order; the
        result is the sequence of calls made. An unknown event calls nobody. */
    method Emit(event: string) returns (called: seq<Listener>)
      ensures event !in events ==> called == []
      ensures event in events ==> called == events[event]
    {
      called := [];
      if event in events {
        var listeners := events[event];
        var i := 0;
        while i < |listeners|
          invariant 0 <= i <= |listeners|
          invariant called == listeners[..i]
        {
          called := called + [listeners[i]];
          i := i + 1;
        }
      }
    }
  }

  /** Two listeners registered one after the other on a fresh registry fire in that order. */
  method RegistrationOrder(event: string, first: Listener, second: Listener) returns (called: seq<Listener>)
    ensures called == [first, second]
  {
    var e := new EventEmitter();
    e.On(event, first);
    e.On(event, second);
    called := e.Emit(event);
  }

  /** `self.config` after construction. */
  datatype BaseConfig = BaseConfig(
    botId: string,
    botName: string,
    botType: string,
    windowHwnd: int,
    commands: map<string, string>,
    defaultChannel: string,
    maxReconnectAttempts: int,
    autojoinChannel: Option<string>)

  /** What one console line does: the new state, the emits in order, and whether the
      bot exits. */
  datatype Reaction = Reaction(state: BotState, emits: seq<Emit>, exit: bool)

  /** `is_channel_active(c)`: a channel the server never reported is assumed active; a
      reported one is active only if the report said exactly `True`. */
  function IsChannelActive(channelStates: map<string, Activity>, c: string): (r: bool)
    ensures c !in channelStates ==> r
    ensures c in channelStates ==> (r <==> channelStates[c] == Active)
  {
    if c !in channelStates then true else channelStates[c] == Active
  }

  /** The two checks of a channel disagree only on a channel reported with a non-boolean
      `active`: it is neither active for the prompt nor inactive for sending. */
  lemma ActiveVersusInactive(channelStates: map<string, Activity>, c: string)
    ensures IsInactive(channelStates, c) ==> !IsChannelActive(channelStates, c)
    ensures (!IsChannelActive(channelStates, c) && !IsInactive(channelStates, c))
            <==> (c in channelStates && channelStates[c] == Unknown)
  {
  }

  /** `should_respond_to(message)`: never for a channel reported inactive, otherwise iff the
      message is tagged with this bot's id. */
  function ShouldRespondTo(st: BotState, botId: string, msg: Message): (r: bool)
    ensures r <==> !IsInactive(st.channelStates, msg.channelId) && botId in msg.tags
  {
    if IsInactive(st.channelStates, msg.channelId) then false
    else |msg.tags| > 0 && botId in msg.tags
  }

  /** The commands `process_command` knows; any other falls to `handle_custom_command`,
      which in this class handles nothing. */
  const KnownCommands: set<string> :=
    {"join", "leave", "start", "stop", "channel", "reconnect", "info", "messages", "help", "exit"}

  /** The effect of one slash command. */
  function CommandReaction(cfg: BaseConfig, st: BotState, name: string, args: seq<string>): (r: Reaction)
    // commands never touch the connection bookkeeping
    ensures r.state.isConnected == st.isConnected && r.state.connectionAttempts == st.connectionAttempts
    ensures r.exit <==> name == "exit"
    // while disconnected, only /channel (a local switch) and /exit do anything
    ensures !st.isConnected && name != "channel" && name != "exit" ==> r.state == st && r.emits == []
    ensures name !in KnownCommands ==> r == Reaction(st, [], false)
    ensures name == "join" && st.isConnected ==>
      var target := FirstArgOr(args, cfg.defaultChannel);
      r.state == st.(currentChannel := Some(target)) && r.emits == [JoinChannel(target), GetChannelDetails(target)]
    ensures (name == "leave" || name == "stop" || name == "info" || name == "messages") && !(InChannel(st) && st.isConnected)
            ==> r.state == st && r.emits == []
    ensures name == "leave" && InChannel(st) && st.isConnected ==>
      r.state == st.(currentChannel := None) && r.emits == [LeaveChannel(Current(st))]
    ensures name == "stop" && InChannel(st) && st.isConnected ==>
      r.state == st.(channelStates := st.channelStates[Current(st) := Inactive]) && r.emits == [StopChannel(Current(st))]
    ensures name == "start" && st.isConnected ==>
      var target := if |args| > 0 then args[0] else if InChannel(st) then Current(st) else cfg.defaultChannel;
      if target == "" then r.state == st && r.emits == []
      else r.state == st.(currentChannel := Some(target), channelStates := st.channelStates[target := Active])
           && r.emits == [StartChannel(target)]
    ensures name == "channel" ==>
      var target := FirstArgOr(args, "");
      if target == "" then r.state == st && r.emits == []
      else r.state == st.(currentChannel := Some(target))
           && r.emits == (if st.isConnected then [GetChannelDetails(target)] else [])
    ensures (name == "info" || name == "messages") && InChannel(st) && st.isConnected ==>
      r.state == st
      && r.emits == [if name == "info" then GetChannelDetails(Current(st)) else GetChannelMessages(Current(st))]
    // /reconnect goes to the transport, /help only prints
    ensures name == "reconnect" || name == "help" ==> r == Reaction(st, [], false)
    ensures name == "exit" ==>
      r.state == st && r.emits == (if InChannel(st) && st.isConnected then [LeaveChannel(Current(st))] else [])
  {
    var noChange := Reaction(st, [], false);
    if name == "join" then
      var target := FirstArgOr(args, cfg.defaultChannel);
      if !st.isConnected then noChange
      else Reaction(st.(currentChannel := Some(target)), [JoinChannel(target), GetChannelDetails(target)], false)
    else if name == "leave" then
      if !InChannel(st) || !st.isConnected then noChange
      else Reaction(st.(currentChannel := None), [LeaveChannel(Current(st))], false)
    else if name == "start" then
      if !st.isConnected then noChange
      else
        var target := if |args| > 0 then args[0] else if InChannel(st) then Current(st) else cfg.defaultChannel;
        if target == "" then noChange
        else Reaction(st.(currentChannel := Some(target), channelStates := st.channelStates[target := Active]),
                      [StartChannel(target)], false)
    else if name == "stop" then
      if !InChannel(st) || !st.isConnected then noChange
      else Reaction(st.(channelStates := st.channelStates[Current(st) := Inactive]), [StopChannel(Current(st))], false)
    else if name == "channel" then
      var target := FirstArgOr(args, "");
      if target == "" then noChange
      else Reaction(st.(currentChannel := Some(target)), if st.isConnected then [GetChannelDetails(target)] else [], false)
    else if name == "info" then
      if !InChannel(st) || !st.isConnected then noChange
      else Reaction(st, [GetChannelDetails(Current(st))], false)
    else if name == "messages" then
      if !InChannel(st) || !st.isConnected then noChange
      else Reaction(st, [GetChannelMessages(Current(st))], false)
    else if name == "exit" then
      Reaction(st, if InChannel(st) && st.isConnected then [LeaveChannel(Current(st))] else [], true)
    else
      // "reconnect" (the transport's connect), "help" and unknown commands
      noChange
  }

  /** `process_command(input_text)`. */
  function React(cfg: BaseConfig, st: BotState, input: string): (r: Reaction)
    ensures Parse(input).Blank? ==> r == Reaction(st, [], false)
    ensures Parse(input).Line? ==>
      r.state == st && !r.exit && r.emits == (if CanSend(st) then [Post(Current(st), Strip(input))] else [])
    ensures !Parse(input).Command? ==> r.state == st && !r.exit
  {
    match Parse(input)
    case Blank => Reaction(st, [], false)
    case Line(text) => Reaction(st, if CanSend(st) then [Post(Current(st), text)] else [], false)
    case Command(name, args) => CommandReaction(cfg, st, name, args)
  }

  /** While connected, `/join c` switches to `c` and emits the join and a details request. */
  lemma {:induction false} JoinLine(cfg: BaseConfig, st: BotState, c: string)
    requires st.isConnected && c != "" && NoSpace(c)
    ensures React(cfg, st, "/join " + c)
            == Reaction(st.(currentChannel := Some(c)), [JoinChannel(c), GetChannelDetails(c)], false)
  {
    ParseWithArg("join", c, "/join " + c);
  }

  /** In a channel and connected, `/leave` clears the channel and emits the leave. */
  lemma {:induction false} LeaveLine(cfg: BaseConfig, st: BotState)
    requires InChannel(st) && st.isConnected
    ensures React(cfg, st, "/leave") == Reaction(st.(currentChannel := None), [LeaveChannel(Current(st))], false)
  {
    ParseBare("leave", "/leave");
  }

  /** While connected, `/join c` followed by `/leave` leaves the bot with no channel, having
      emitted exactly the join, the details request and the leave, in that order. */
  lemma {:induction false} JoinThenLeave(cfg: BaseConfig, st: BotState, c: string)
    requires st.isConnected && c != "" && NoSpace(c)
    ensures var r1 := React(cfg, st, "/join " + c);
            var r2 := React(cfg, r1.state, "/leave");
            r2.state == st.(currentChannel := None)
            && r1.emits + r2.emits == [JoinChannel(c), GetChannelDetails(c), LeaveChannel(c)]
            && !r1.exit && !r2.exit
  {
    JoinLine(cfg, st, c);
    LeaveLine(cfg, st.(currentChannel := Some(c)));
  }

  /** In a channel and connected, `/stop` marks the channel inactive and emits the stop. */
  lemma StopLine(cfg: BaseConfig, st: BotState)
    requires InChannel(st) && st.isConnected
    ensures React(cfg, st, "/stop")
            == Reaction(st.(channelStates := st.channelStates[Current(st) := Inactive]), [StopChannel(Current(st))], false)
  {
    ParseBare("stop", "/stop");
  }

  /** After `/stop` in a channel, no plain line reaches that channel until the server says
      otherwise. */
  lemma StopSilencesText(cfg: BaseConfig, st: BotState, line: string)
    requires InChannel(st) && st.isConnected
    requires Parse(line).Line?
    ensures var r1 := React(cfg, st, "/stop");
            r1.emits == [StopChannel(Current(st))]
            && React(cfg, r1.state, line).emits == []
  {
    StopLine(cfg, st);
    var s1 := st.(channelStates := st.channelStates[Current(st) := Inactive]);
    assert !CanSend(s1);
  }

  /** `BaseBot`: the configuration, `self.state` and the transport's outbox. */
  class BaseBot {
    const config: BaseConfig
    var state: BotState
    var outbox: seq<Emit>

    constructor (config: BaseConfig)
      ensures this.config == config && state == Initial && outbox == []
    {
      this.config := config;
      state := Initial;
      outbox := [];
    }

    /** The `connect` callback: connected, attempts reset, and the bot registers itself. */
    method OnConnect()
      modifies this
      ensures state == old(state).(isConnected := true, connectionAttempts := 0)
      ensures outbox == old(outbox)
        + [RegisterWindow(config.botId, config.botName, config.botType, config.windowHwnd, config.commands)]
    {
      state := state.(isConnected := true);
      state := state.(connectionAttempts := 0);
      outbox := outbox + [RegisterWindow(config.botId, config.botName, config.botType, config.windowHwnd, config.commands)];
    }

    /** The `disconnect` callback: only the connection flag changes. */
    method OnDisconnect()
      modifies this
      ensures state == old(state).(isConnected := false)
      ensures outbox == old(outbox)
    {
      state := state.(isConnected := false);
    }

    /** The `connect_error` callback: one more failed attempt; `gaveUp` is the branch that
        prints "Failed to connect ... Use /reconnect". */
    method OnConnectError() returns (gaveUp: bool)
      modifies this
      ensures state == old(state).(connectionAttempts := old(state).connectionAttempts + 1)
      ensures outbox == old(outbox)
      ensures gaveUp <==> state.connectionAttempts >= config.maxReconnectAttempts
    {
      state := state.(connectionAttempts := state.connectionAttempts + 1);
      if state.connectionAttempts < config.maxReconnectAttempts {
        gaveUp := false;
      } else {
        gaveUp := true;
      }
    }

    /** The `channel_status` callback stores what the server said about `channelId`. */
    method OnChannelStatus(channelId: string, active: Activity)
      modifies this
      ensures state == old(state).(channelStates := old(state).channelStates[channelId := active])
      ensures outbox == old(outbox)
    {
      state := state.(channelStates := state.channelStates[channelId := active]);
    }

    /** The `channel_started` callback. */
    method OnChannelStarted(channelId: string)
      modifies this
      ensures state == old(state).(channelStates := old(state).channelStates[channelId := Active])
      ensures outbox == old(outbox)
    {
      state := state.(channelStates := state.channelStates[channelId := Active]);
    }

    /** The `channel_stopped` callback. */
    method OnChannelStopped(channelId: string)
      modifies this
      ensures state == old(state).(channelStates := old(state).channelStates[channelId := Inactive])
      ensures outbox == old(outbox)
    {
      state := state.(channelStates := state.channelStates[channelId := Inactive]);
    }

    /** The reply to the `get_channel_details` emitted by `/join` or `/channel`: stored only
        when its `active` is a boolean. */
    method OnJoinDetails(channelId: string, active: Activity)
      modifies this
      ensures state == if active == Unknown then old(state)
                       else old(state).(channelStates := old(state).channelStates[channelId := active])
      ensures outbox == old(outbox)
    {
      if active != Unknown {
        state := state.(channelStates := state.channelStates[channelId := active]);
      }
    }

    /** The reply to the `get_channel_details` emitted by `/info`: stored whatever it holds. */
    method OnInfoDetails(channelId: string, active: Activity)
      modifies this
      ensures state == old(state).(channelStates := old(state).channelStates[channelId := active])
      ensures outbox == old(outbox)
    {
      state := state.(channelStates := state.channelStates[channelId := active]);
    }

    /** The `new_message` callback's decision: messages from this bot itself are ignored,
        the others get a delayed response when `should_respond_to` holds. */
    method OnNewMessage(msg: Message) returns (respond: bool)
      ensures respond <==> msg.senderId != config.botId && ShouldRespondTo(state, config.botId, msg)
    {
      respond := false;
      if msg.senderId != config.botId {
        respond := ShouldRespondTo(state, config.botId, msg);
      }
    }

    /** The delayed response, once the delay is over: nothing when disconnected or when the
        channel has been reported inactive meanwhile, else one `message` emit carrying
        `generate_response`'s result (`None` when it raised). */
    method RespondAfterDelay(msg: Message, response: Option<string>)
      modifies this
      ensures state == old(state)
      ensures outbox == if !state.isConnected || IsInactive(state.channelStates, msg.channelId) then old(outbox)
                        else old(outbox) + [Post(msg.channelId, response.GetOr("Error generating response x01"))]
    {
      if !state.isConnected {
        return;
      }
      if IsInactive(state.channelStates, msg.channelId) {
        return;
      }
      var content := "Error generating response x01";
      if response.Some? {
        content := response.value;
      }
      outbox := outbox + [Post(msg.channelId, content)];
    }

    /** `process_command(input_text)`. */
    method ProcessCommand(input: string) returns (exit: bool)
      modifies this
      ensures var r := React(config, old(state), input);
              state == r.state && outbox == old(outbox) + r.emits && exit == r.exit
    {
      exit := false;
      var parsed := Parse(input);
      if parsed.Blank? {
        return;
      }
      if parsed.Line? {
        if InChannel(state) {
          if !state.isConnected {
            return;
          }
          if IsInactive(state.channelStates, Current(state)) {
            return;
          }
          outbox := outbox + [Post(Current(state), parsed.text)];
        }
        return;
      }
      exit := RunCommand(parsed.name, parsed.args);
    }

    /** The slash commands of `process_command`. */
    method RunCommand(command: string, args: seq<string>) returns (exit: bool)
      modifies this
      ensures var r := CommandReaction(config, old(state), command, args);
              state == r.state && outbox == old(outbox) + r.emits && exit == r.exit
    {
      exit := false;
      if command == "join" {
        var target := FirstArgOr(args, config.defaultChannel);
        if !state.isConnected {
          return;
        }
        outbox := outbox + [JoinChannel(target)];
        state := state.(currentChannel := Some(target));
        outbox := outbox + [GetChannelDetails(target)];
      } else if command == "leave" {
        if !InChannel(state) {
          return;
        }
        if !state.isConnected {
          return;
        }
        outbox := outbox + [LeaveChannel(Current(state))];
        state := state.(currentChannel := None);
      } else if command == "start" {
        if !state.isConnected {
          return;
        }
        var target := if |args| > 0 then args[0] else if InChannel(state) then Current(state) else config.defaultChannel;
        if target == "" {
          return;
        }
        outbox := outbox + [StartChannel(target)];
        state := state.(currentChannel := Some(target));
        state := state.(channelStates := state.channelStates[target := Active]);
      } else if command == "stop" {
        if !InChannel(state) {
          return;
        }
        if !state.isConnected {
          return;
        }
        outbox := outbox + [StopChannel(Current(state))];
        state := state.(channelStates := state.channelStates[Current(state) := Inactive]);
      } else if command == "channel" {
        var target := FirstArgOr(args, "");
        if target == "" {
          return;
        }
        state := state.(currentChannel := Some(target));
        if state.isConnected {
          outbox := outbox + [GetChannelDetails(target)];
        }
      } else if command == "info" || command == "messages" {
        if !InChannel(state) {
          return;
        }
        if !state.isConnected {
          return;
        }
        var request := if command == "info" then GetChannelDetails(Current(state)) else GetChannelMessages(Current(state));
        outbox := outbox + [request];
      } else if command == "exit" {
        if InChannel(state) && state.isConnected {
          outbox := outbox + [LeaveChannel(Current(state))];
        }
        exit := true;
      }
    }

    /** The `bot_registered` callback: with an `autojoin_channel` option the bot runs
        `/join <channel>`. */
    method OnBotRegistered() returns (exit: bool)
      modifies this
      ensures config.autojoinChannel.None? ==> state == old(state) && outbox == old(outbox) && !exit
      ensures config.autojoinChannel.Some? ==>
        var r := React(config, old(state), "/join " + config.autojoinChannel.value);
        state == r.state && outbox == old(outbox) + r.emits && exit == r.exit
    {
      exit := false;
      if config.autojoinChannel.Some? {
        exit := ProcessCommand("/join " + config.autojoinChannel.value);
      }
    }
  }
}
