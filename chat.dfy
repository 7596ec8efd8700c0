/** What the two bot classes share: the connection state record (`self.state`), the
    events the bot emits on the transport (collected in an outbox), inbound chat
    messages and the way a console line is split into a command and its arguments.
    `base_bot/__init__.py` and `pluggable_base/pluggable.py` each have their own copy of
    this code; the copies agree line for line in the parts defined here. */
module Chat {

  import opened Wrappers
  import opened Text
  import opened JsonBlock

  /** What the bot knows of a channel: `data.get("active")` was `True`, was `False`, or
      was anything else (missing, `None`, a non-boolean). */
  datatype Activity = Active | Inactive | Unknown

  /** One `socket.emit(...)` call. */
  datatype Emit =
    | Register(botId: string, name: string, botType: string)
    | RegisterWindow(botId: string, name: string, botType: string, windowHwnd: int, commands: map<string, string>)
    | JoinChannel(channel: string)
    | LeaveChannel(channel: string)
    | StartChannel(channel: string)
    | StopChannel(channel: string)
      /** the `message` event: `{channelId, content}` */
    | Post(channelId: string, content: string)
    | GetChannelDetails(channel: string)
    | GetChannelMessages(channel: string)

  /** An inbound `new_message` payload. An absent `jsonData` is the empty list of fields. */
  datatype Message = Message(
    senderId: string,
    senderName: string,
    channelId: string,
    content: string,
    tags: seq<string>,
    jsonData: seq<(string, Json)>)

  /** `self.state`: the channel the console talks to, the connection flag, the count of
      failed connection attempts and what the server last said about each channel. */
  datatype BotState = BotState(
    currentChannel: Option<string>,
    isConnected: bool,
    connectionAttempts: nat,
    channelStates: map<string, Activity>)

  const Initial: BotState := BotState(None, false, 0, map[])

  /** `if self.state["current_channel_id"]`: set and not the empty string. */
  predicate InChannel(st: BotState) {
    st.currentChannel.Some? && st.currentChannel.value != ""
  }

  function Current(st: BotState): string
    requires InChannel(st)
  {
    st.currentChannel.value
  }

  /** `channel_states.get(c) is False`: the server said, in so many words, that `c` is stopped. */
  predicate IsInactive(channelStates: map<string, Activity>, c: string) {
    c in channelStates && channelStates[c] == Inactive
  }

  /** Plain text goes out as a `message` emit only when the line is not blank, a channel is
      set, the bot is connected and the server has not reported the channel inactive. */
  predicate CanSend(st: BotState) {
    InChannel(st) && st.isConnected && !IsInactive(st.channelStates, Current(st))
  }

  /** A console line after `strip()`: a slash command with its lower-cased name and its
      arguments, a plain line of text, or nothing. */
  datatype Input = Command(name: string, args: seq<string>) | Line(text: string) | Blank

  /** `process_command`'s parse: `trimmed[1:].split(' ')`, the first piece lower-cased as the
      command name and the rest as arguments (so two spaces give an empty argument). */
  function Parse(input: string): (r: Input)
    ensures r.Blank? <==> Strip(input) == ""
    ensures r.Line? <==> Strip(input) != "" && Strip(input)[0] != '/'
    ensures r.Line? ==> r.text == Strip(input)
    ensures r.Command? ==> forall i :: 0 <= i < |r.args| ==> ' ' !in r.args[i]
  {
    var trimmed := Strip(input);
    if StartsWith(trimmed, "/") then
      var parts := Split(trimmed[1..], ' ');
      Command(Lower(parts[0]), parts[1..])
    else if trimmed != "" then Line(trimmed)
    else Blank
  }

  /** `args[0] if args else fallback`. */
  function FirstArgOr(args: seq<string>, fallback: string): string {
    if |args| > 0 then args[0] else fallback
  }

  predicate NoSpace(s: string) {
    forall i :: 0 <= i < |s| ==> !IsSpace(s[i])
  }

  lemma {:induction false} JoinLast(parts: seq<string>, sep: string)
    requires |parts| >= 1 && parts[|parts| - 1] != ""
    ensures |Join(parts, sep)| >= |parts[|parts| - 1]|
    ensures Join(parts, sep)[|Join(parts, sep)| - 1] == parts[|parts| - 1][|parts[|parts| - 1]| - 1]
  {
    if |parts| > 1 {
      JoinLast(parts[1..], sep);
    }
  }

  /** A command line typed as `/name arg1 arg2 ...` with single spaces parses back into its
      lower-cased name and exactly those arguments. */
  lemma {:induction false} ParseCommandLine(name: string, args: seq<string>)
    requires name != "" && NoSpace(name)
    requires forall i :: 0 <= i < |args| ==> NoSpace(args[i])
    requires |args| > 0 ==> args[|args| - 1] != ""
    ensures Parse("/" + Join([name] + args, " ")) == Command(Lower(name), args)
  {
    var parts := [name] + args;
    var body := Join(parts, " ");
    var line := "/" + body;
    assert parts[|parts| - 1] != "";
    JoinLast(parts, " ");
    assert line[|line| - 1] == body[|body| - 1];
    forall i | 0 <= i < |parts|
      ensures ' ' !in parts[i]
    {
      assert NoSpace(parts[i]);
      assert IsSpace(' ');
    }
    StripFixed(line);
    assert line[1..] == body;
    SplitJoin(parts, ' ');
    assert parts[1..] == args;
  }

  /** `extract_json_data(message)`: the value of the first field of a non-empty `jsonData`. */
  function ExtractJsonData(jsonData: seq<(string, Json)>): (r: Option<Json>)
    ensures r.None? <==> |jsonData| == 0
    ensures r.Some? ==> r.value == jsonData[0].1
  {
    if |jsonData| > 0 then Some(jsonData[0].1) else None
  }

  lemma LowerLiteral(s: string)
    requires forall i :: 0 <= i < |s| ==> 'a' <= s[i] <= 'z'
    ensures Lower(s) == s
  {
  }

  /** `/name arg` typed with one space parses into that command and argument. */
  lemma {:induction false} ParseWithArg(name: string, arg: string, input: string)
    requires name != "" && NoSpace(name) && forall i :: 0 <= i < |name| ==> 'a' <= name[i] <= 'z'
    requires arg != "" && NoSpace(arg)
    requires input == "/" + name + " " + arg
    ensures Parse(input) == Command(name, [arg])
  {
    assert Join([name] + [arg], " ") == name + " " + arg;
    ParseCommandLine(name, [arg]);
    LowerLiteral(name);
    assert "/" + name + " " + arg == "/" + Join([name] + [arg], " ");
  }

  /** `/name` typed alone parses into that command with no arguments. */
  lemma {:induction false} ParseBare(name: string, input: string)
    requires name != "" && NoSpace(name) && forall i :: 0 <= i < |name| ==> 'a' <= name[i] <= 'z'
    requires input == "/" + name
    ensures Parse(input) == Command(name, [])
  {
    assert [name] + [] == [name];
    ParseCommandLine(name, []);
    LowerLiteral(name);
  }
}
