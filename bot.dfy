/**
 * The bot session (`Slackish`): the configured bot id, the registry, the
 * channel and transport handles of the event being handled, the shared
 * outbound queue, and the log of every `chat_postMessage` call made.
 */
module Bot {
  import opened Wrappers
  import opened Text
  import opened Mention
  import opened Kwargs
  import opened Commands
  import opened Dispatch

  /** One `chat_postMessage(channel=..., text=...)` call. */
  datatype ChatMessage = ChatMessage(channel: string, text: string)

  /** The calls that post `texts`, in order, to one channel. */
  function Addressed(channel: string, texts: seq<string>): (ms: seq<ChatMessage>)
    ensures |ms| == |texts|
  {
    if texts == [] then [] else Addressed(channel, texts[..|texts| - 1]) + [ChatMessage(channel, texts[|texts| - 1])]
  }

  /** The calls for `a + b` are those for `a`, then those for `b`. */
  lemma {:induction false} AddressedAppend(channel: string, a: seq<string>, b: seq<string>)
    ensures Addressed(channel, a + b) == Addressed(channel, a) + Addressed(channel, b)
  {
    if b != [] {
      var b' := b[..|b| - 1];
      assert (a + b)[..|a + b| - 1] == a + b';
      AddressedAppend(channel, a, b');
    } else {
      assert a + b == a;
    }
  }

  /** Each text becomes one call to the channel, at the same position. */
  lemma {:induction false} AddressedAt(channel: string, texts: seq<string>, i: nat)
    requires i < |texts|
    ensures Addressed(channel, texts)[i] == ChatMessage(channel, texts[i])
  {
    if i < |texts| - 1 {
      AddressedAt(channel, texts[..|texts| - 1], i);
    }
  }

  /** Sequence concatenation is associative; stated once so that the
      session methods can regroup their post logs cheaply. */
  lemma ConcatAssoc<T>(a: seq<T>, b: seq<T>, c: seq<T>)
    ensures a + b + c == a + (b + c)
  {
  }

  /** A transport handle (`web_client`, `rtm_client`), known only by identity. */
  type ClientRef = nat

  /** What the transport passes to `handle`: the event and its two handles. */
  datatype Payload = Payload(data: Event, webClient: ClientRef, rtmClient: ClientRef)

  class Slackish {
    const botId: Option<string>
    const registry: CommandRegistry
    var channel: Option<string>
    var webClient: Option<ClientRef>
    var rtmClient: Option<ClientRef>
    var messageQueue: seq<string>
    var posts: seq<ChatMessage>

    ghost predicate Valid()
      reads registry
    {
      registry.Valid()
    }

    /** A fresh session: no channel and no transport handles yet, nothing
        posted. `message_queue` belongs to the class, not to the instance, so
        whatever was sent before construction (`queue`) is still pending. */
    constructor (registry: CommandRegistry, botId: Option<string>, queue: seq<string>)
      requires registry.Valid()
      ensures Valid() && this.registry == registry && this.botId == botId
      ensures channel == None && webClient == None && rtmClient == None
      ensures messageQueue == queue && posts == []
    {
      this.registry := registry;
      this.botId := botId;
      channel, webClient, rtmClient := None, None, None;
      messageQueue, posts := queue, [];
    }

    /** `send`: enqueue a message for the next flush. */
    method Send(message: string)
      modifies this`messageQueue
      ensures messageQueue == old(messageQueue) + [message]
    {
      messageQueue := messageQueue + [message];
    }

    /** A handler's successive `send` calls, in order. */
    method SendAll(messages: seq<string>)
      modifies this`messageQueue
      ensures messageQueue == old(messageQueue) + messages
    {
      var i := 0;
      while i < |messages|
        invariant 0 <= i <= |messages|
        invariant messageQueue == old(messageQueue) + messages[..i]
      {
        Send(messages[i]);
        assert messages[..i + 1] == messages[..i] + [messages[i]];
        i := i + 1;
      }
      assert messages[..i] == messages;
    }

    /** `post`: send a message to the current channel at once. The channel
        and the web client are set by `handle`; before that `post` fails. */
    method Post(message: string)
      requires channel.Some? && webClient.Some?
      modifies this`posts
      ensures posts == old(posts) + [ChatMessage(channel.value, message)]
    {
      posts := posts + [ChatMessage(channel.value, message)];
    }

    /** `error`: post `"Error: "` and the message, or the default message. */
    method Error(message: Option<string>)
      requires channel.Some? && webClient.Some?
      modifies this`posts
      ensures posts == old(posts) + [ChatMessage(channel.value, ErrorText(message))]
    {
      Post(ErrorText(message));
    }

    /** `cmd_help`: with a command name, post its help (a name that is not
        registered raises `KeyError` before anything is posted); without one,
        post every help text in registry order. */
    method CmdHelp(command: Option<string>) returns (raised: bool)
      requires Valid() && channel.Some? && webClient.Some?
      modifies this`posts
      ensures raised <==> Truthy(command) && command.value !in registry.table
      ensures posts == old(posts) + Addressed(channel.value,
        if !Truthy(command) then HelpTexts(registry.names, registry.table)
        else if raised then []
        else [registry.table[command.value].help])
    {
      if Truthy(command) {
        if command.value !in registry.table {
          return true;
        }
        Post(registry.table[command.value].help);
        return false;
      }
      var names := registry.names;
      ghost var helps := HelpTexts(names, registry.table);
      var i := 0;
      while i < |names|
        invariant 0 <= i <= |names|
        invariant posts == old(posts) + Addressed(channel.value, helps[..i])
      {
        Post(registry.table[names[i]].help);
        assert helps[..i + 1][..i] == helps[..i];
        i := i + 1;
      }
      assert helps[..i] == helps;
      return false;
    }

    /** `flush`: post every queued message, in order, to the current channel. */
    method Flush(messages: seq<string>)
      requires channel.Some? && webClient.Some?
      modifies this`posts
      ensures posts == old(posts) + Addressed(channel.value, messages)
    {
      var i := 0;
      while i < |messages|
        invariant 0 <= i <= |messages|
        invariant posts == old(posts) + Addressed(channel.value, messages[..i])
      {
        Post(messages[i]);
        assert messages[..i + 1][..i] == messages[..i];
        i := i + 1;
      }
      assert messages[..i] == messages;
    }

    /** The `except KeyError` branch of `command_to_fn_call`: the error post
        and the full help. */
    method ReportInvalid()
      requires Valid() && channel.Some? && webClient.Some?
      modifies this`posts
      ensures posts == old(posts) + Addressed(channel.value, InvalidReplies(registry.names, registry.table))
    {
      Error(Some(InvalidCommand));
      var _ := CmdHelp(None);
      AddressedAppend(channel.value, [ErrorText(Some(InvalidCommand))], HelpTexts(registry.names, registry.table));
    }

    /** `command_to_fn_call`: `escaped` says that an exception leaves it
        (from splitting, from an empty word list, or a handler's own
        exception other than `KeyError`). */
    method CommandToFnCall(command: string, split: Tokenizer) returns (escaped: bool)
      requires Valid() && channel.Some? && webClient.Some?
      modifies this`posts, this`messageQueue
      ensures var d := Dispatched(registry.names, registry.table, split, command);
        && escaped == d.escaped
        && posts == old(posts) + Addressed(channel.value, d.posted)
        && messageQueue == old(messageQueue) + d.enqueued
    {
      ghost var names, table := registry.names, registry.table;
      var words := split(command);
      if words == None || words.value == [] {
        return true;
      }
      var key := Lower(words.value[0]);
      if key !in registry.table {
        assert Dispatched(names, table, split, command) == Dispatch(InvalidReplies(names, table), [], false);
        ReportInvalid();
        return false;
      }
      var out := registry.table[key].cmd(ListToDict(words.value[1..]));
      SendAll(out.enqueued);
      match out.raised
      case None =>
        assert Dispatched(names, table, split, command) == Dispatch([], out.enqueued, false);
        escaped := false;
      case Some(KeyError) =>
        assert Dispatched(names, table, split, command) == Dispatch(InvalidReplies(names, table), out.enqueued, false);
        ReportInvalid();
        escaped := false;
      case Some(OtherError) =>
        assert Dispatched(names, table, split, command) == Dispatch([], out.enqueued, true);
        escaped := true;
    }

    /** The `except Exception` branch of `handle`: the apology and the full help. */
    method Apologize()
      requires Valid() && channel.Some? && webClient.Some?
      modifies this`posts
      ensures posts == old(posts) + Addressed(channel.value, [Fallback] + HelpTexts(registry.names, registry.table))
    {
      Post(Fallback);
      var _ := CmdHelp(None);
      AddressedAppend(channel.value, [Fallback], HelpTexts(registry.names, registry.table));
    }

    /** `handle`: a message without a command is ignored and changes nothing;
        otherwise the channel and the handles are recorded, the command is
        dispatched, an escaped exception is answered with the apology and the
        full help, and the queue is posted in order and emptied. */
    method Handle(payload: Payload, split: Tokenizer)
      requires Valid()
      modifies this
      ensures Valid()
      ensures var parsed := ParseBotCommands(botId, payload.data);
        if !Truthy(parsed.0) then
          && channel == old(channel) && webClient == old(webClient) && rtmClient == old(rtmClient)
          && messageQueue == old(messageQueue) && posts == old(posts)
        else
          && channel == Some(payload.data.channel)
          && webClient == Some(payload.webClient) && rtmClient == Some(payload.rtmClient)
          && messageQueue == []
          && posts == old(posts) + Addressed(payload.data.channel,
               HandleTexts(registry.names, registry.table, split, parsed.0.value, old(messageQueue)))
    {
      var parsed := ParseBotCommands(botId, payload.data);
      var command := parsed.0;
      if !Truthy(command) {
        return;
      }
      channel := parsed.1;
      webClient := Some(payload.webClient);
      rtmClient := Some(payload.rtmClient);
      Process(command.value, split);
    }

    /** Lines 146-154 of `handle`, once the channel is set: dispatch, the
        apology if an exception escaped, then the flush of the whole queue. */
    method Process(command: string, split: Tokenizer)
      requires Valid() && channel.Some? && webClient.Some?
      modifies this`posts, this`messageQueue
      ensures messageQueue == []
      ensures posts == old(posts) + Addressed(channel.value,
        HandleTexts(registry.names, registry.table, split, command, old(messageQueue)))
    {
      ghost var ch := channel.value;
      ghost var posted0 := posts;
      ghost var queued0 := messageQueue;
      ghost var replies := Respond(command, split);
      ghost var replied := posts;
      Flush(messageQueue);
      messageQueue := [];
      ghost var pending := queued0 + Dispatched(registry.names, registry.table, split, command).enqueued;
      AddressedAppend(ch, replies, pending);
      ConcatAssoc(posted0, Addressed(ch, replies), Addressed(ch, pending));
    }

    /** The `try`/`except` of `handle`: dispatch, and the apology if an
        exception escaped; ghost `replies` is everything posted meanwhile. */
    method Respond(command: string, split: Tokenizer) returns (ghost replies: seq<string>)
      requires Valid() && channel.Some? && webClient.Some?
      modifies this`posts, this`messageQueue
      ensures var d := Dispatched(registry.names, registry.table, split, command);
        && replies == d.posted + Apology(registry.names, registry.table, d.escaped)
        && posts == old(posts) + Addressed(channel.value, replies)
        && messageQueue == old(messageQueue) + d.enqueued
    {
      ghost var posted0 := posts;
      var escaped := CommandToFnCall(command, split);
      ghost var d := Dispatched(registry.names, registry.table, split, command);
      ghost var apology := Apology(registry.names, registry.table, escaped);
      ghost var dispatched := posts;
      if escaped {
        Apologize();
      } else {
        assert apology == [];
      }
      assert posts == dispatched + Addressed(channel.value, apology);
      replies := d.posted + apology;
      AddressedAppend(channel.value, d.posted, apology);
      ConcatAssoc(posted0, Addressed(channel.value, d.posted), Addressed(channel.value, apology));
    }
  }

  /** A `ping` handler that enqueues `pong`, and a tokenizer for its line. */
  function Pong(kwargs: map<string, string>): Outcome {
    Outcome(["pong"], None)
  }

  function SplitPing(line: string): Option<seq<string>> {
    if line == "ping" then Some(["ping"]) else None
  }

  /** `<@U1> ping` from channel `C1` is the command `ping` for bot `U1` ... */
  lemma PingParsed()
    ensures ParseBotCommands(Some("U1"), Event(None, "<@U1> ping", "C1")) == (Some("ping"), Some("C1"))
  {
    assert TrimLeft(" ping") == "ping";
    assert TrimRight("ping") == "ping";
    assert "<@" + "U1" + ">" + " ping" == "<@U1> ping";
    CommandForBot("U1", " ping", "C1");
  }

  /** ... and with only `ping` registered, handling it posts just `pong`. */
  lemma PingHandled()
    ensures HandleTexts(["ping"], map["ping" := Entry(Pong, "ping: replies pong")], SplitPing, "ping", []) == ["pong"]
  {
    LowerNormalizes("ping");
    var table := map["ping" := Entry(Pong, "ping: replies pong")];
    assert WellFormed(["ping"], table);
    assert Dispatched(["ping"], table, SplitPing, "ping") == Dispatch([], ["pong"], false);
  }

  /** The same example run through a session (`text` is `<@U1> ping`): the
      only call made is `chat_postMessage(channel="C1", text="pong")`, and the
      queue is empty again. */
  method PingScenario(text: string) returns (posts: seq<ChatMessage>, queue: seq<string>)
    requires text == "<@U1> ping"
    ensures posts == [ChatMessage("C1", "pong")] && queue == []
  {
    var registry := new CommandRegistry();
    var entry := Entry(Pong, "ping: replies pong");
    registry.Register("ping", entry);
    assert registry.names == ["ping"] && registry.table == map["ping" := entry];
    var bot := new Slackish(registry, Some("U1"), []);
    var event := Event(None, text, "C1");
    PingParsed();
    PingHandled();
    bot.Handle(Payload(event, 0, 0), SplitPing);
    assert bot.posts == Addressed("C1", ["pong"]);
    assert ["pong"][..0] == [];
    posts, queue := bot.posts, bot.messageQueue;
  }
}
