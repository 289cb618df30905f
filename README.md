# slackish: a chat-bot command router, modelled in Dafny

`slackish.py` turns chat messages into command calls. A message event that
starts with a direct mention of the bot (`<@U123> ping a 1`) is parsed into a
command line. The line is split into words. The lower-cased first word
selects a handler in the command registry. The remaining words are paired into
keyword arguments and passed to the handler. Handlers queue replies with `send`.
For an event that carries a command, the bot then posts the queue to the
event's channel and empties it; any other event changes nothing. An unknown
command, or a handler that raises `KeyError`, gets an error post and the full
help. Any other exception (from splitting, from an empty word list, or from a
handler) gets an apology and the full help.

The model has seven modules, one per component. Each entry names the
function that stands for a piece of the program; the lemmas that
characterise it are listed in the table below.

- `Wrappers` (`wrappers.dfy`): `Option`, standing for Python's `None`.
- `Text` (`text.dfy`): the Python string behaviour the router depends on.
  `IsSpace` is `str.isspace` (the whitespace `strip()` removes at
  slackish.py:78). `Strip` is `strip()`, built from `TrimLeft` and
  `TrimRight`. `TakeLine` is the `(.*)` group of the pattern at
  slackish.py:48, since `.` matches any character but a newline. `Lower` is
  `lower()` at slackish.py:95.
- `Mention` (`mention.dfy`): `parse_direct_mention` (slackish.py:71-78) is
  `ParseDirectMention` and `parse_bot_commands` (slackish.py:59-69) is
  `ParseBotCommands`, for the default pattern `^<@(|[WU].+?)>(.*)`. The
  pattern is written as a scan (`MatchEnd`, and `LazyClose` for the lazy
  `.+?>`) and separately as a declarative predicate (`ClosesAt`); the two
  are proved equal.
- `Kwargs` (`kwargs.dfy`): `list_to_dict` (slackish.py:86-89) is
  `ListToDict`. It is `Pairs` (`zip(it, it)`) followed by `DictOf`
  (`dict(...)` of the pairs, later keys overriding earlier ones).
- `Commands` (`commands.dfy`): `Command.registry` (slackish.py:31-34) is the
  class `CommandRegistry`, updated in place by `Register`. It keeps the names
  in insertion order, because `cmd_help` iterates the dictionary in that
  order.
- `Dispatch` (`dispatch.dfy`): the effect of `command_to_fn_call`
  (slackish.py:91-108) is `Dispatched`. It gives the texts posted at once,
  the texts handlers enqueued, and whether an exception escaped. Within it,
  `InvalidReplies` is the `except KeyError` branch (slackish.py:107-108).
  The texts `handle` posts (slackish.py:146-154) are `HandleTexts`, and
  `Apology` is its `except Exception` branch (slackish.py:150-151). The
  error text of `error` (slackish.py:120-124) is `ErrorText`.
- `Bot` (`bot.dfy`): the session class `Slackish`. It holds the bot id, the
  registry, the current channel, the transport handles, the shared
  `message_queue` and a log of every `chat_postMessage` call. `send`, `post`,
  `error`, `cmd_help`, `flush`, `command_to_fn_call` and `handle` are methods
  on it:
  - `Send` appends to the queue.
  - `Post`, `Error` and `Flush` append calls to the log.
  - `CmdHelp` posts the texts of `HelpTexts`.
  - `CommandToFnCall` and `Handle` change the queue and the log exactly as
    `Dispatched` and `HandleTexts` say.
  - A handler's messages reach the queue through `SendAll`, one `Send` per
    message.

The model's stand-ins for parts of the program:

- Handlers are abstract. A handler is a function from the keyword-argument map
  to an `Outcome`: the messages it passed to `send`, in order, and the
  exception it raised, if any. An exception is either `KeyError` or any
  other exception.
- `shlex.split` is a `Tokenizer` parameter. It returns `None` where the
  tokenizer raises.
- The Slack transport is replaced by the post log.
- `web_client` and `rtm_client` are opaque references.

## Behaviour worth knowing

- The default pattern only captures an id that is empty or starts with `W`
  or `U` followed by at least one more character. A bot id such as `BOT1` is
  never matched, so such a bot never receives a command
  (`Mention.UnmatchableBotId`). The worked example therefore uses the bot
  id `U1` (`Bot.PingParsed`, `Bot.PingHandled`).
- The words after the command name are paired up into keyword arguments,
  and the command name itself is not one of them. `setname Alice extra`
  calls `setname` with `{Alice: extra}`. A trailing unpaired word, where
  there is one, is dropped (`Kwargs.TrailingTokenDropped`). A repeated key
  keeps its last value (`Kwargs.LaterDuplicateWins`).
- `cmd_help` posts the help texts in registry insertion order.
- With no bot id configured, a message without a mention yields a command
  of `None` with the channel set (`Mention.NoBotId`). `handle` then ignores
  it.
- A command line that splits into no words raises `IndexError` at line 95.
  `handle` catches it and posts the apology and the full help
  (`Dispatch.NothingToDispatch`).
- `message_queue` is a class attribute (slackish.py:43) and `send` is a
  classmethod, so messages sent before the session object exists are still
  pending when it is created. The constructor takes that pending queue as
  an argument.

## Model

| member | source | states |
|---|---|---|
| `Text.TrimLeftSuffix` | slackish.py:78 | the leading part of `strip()`: the result is a suffix of the input, everything cut off is whitespace, and the result does not start with whitespace |
| `Text.TrimRightPrefix` | slackish.py:78 | the trailing part of `strip()`: the result is a prefix of the input, everything cut off is whitespace, and the result does not end with whitespace |
| `Text.StripRemovesEdges` | slackish.py:78 | `strip()` returns a contiguous slice of the input whose two surroundings are all whitespace and whose ends are not whitespace |
| `Text.StripIdempotent` | slackish.py:78 | stripping a stripped remainder changes nothing |
| `Text.TakeLinePrefix` | slackish.py:48 | group 2 `(.*)` is the longest prefix without a newline: a prefix of the text, no newline in it, followed by a newline or by the end |
| `Text.LineWithoutNewline` | slackish.py:48 | a text without a newline is captured whole by `(.*)` |
| `Text.LowerChar` | slackish.py:95 | `lower()` on one character, ASCII only: `A`-`Z` map to `a`-`z` and every other character is unchanged; the non-ASCII case table is left out |
| `Text.Lower` | slackish.py:95 | `lower()` keeps the length and lowers each character in place |
| `Text.LowerNormalizes` | slackish.py:95 | the lowered key has no upper-case letter, lowering twice is lowering once, and an already lower-case name is unchanged |
| `Mention.LazyClose` | slackish.py:48 | the lazy `.+?>` scan only ever closes at a `>` further on in the text |
| `Mention.MatchEnd` | slackish.py:48 | a closing position is only found in a text starting with `<@`, and it holds a `>` |
| `Mention.LazyCloseExact` | slackish.py:48 | the lazy `.+?>` closes at position `k` exactly when `k` holds the first `>` that follows at least one consumed character, with no newline before it |
| `Mention.MatchEndExact` | slackish.py:48 | the scan finds the closing `>` at `k` if and only if the pattern `^<@(\|[WU].+?)>` closes there |
| `Mention.ParseDirectMention` | slackish.py:71-78 | a match is only ever reported for a text starting with `<@` |
| `Mention.ParseDirectMentionMatch` | slackish.py:71-78 | `parse_direct_mention` returns the id `text[2..k]` and the stripped rest of the line after `k` if and only if the pattern closes at `k` |
| `Mention.ParseDirectMentionNone` | slackish.py:76-78 | `(None, None)` is returned exactly when the pattern closes nowhere |
| `Mention.MentionedIdShape` | slackish.py:48 | every id a match yields is empty, or a `W`/`U` and at least one more character, with no newline and no `>` after its first two characters |
| `Mention.MentionOf` | slackish.py:48 | conversely, `<@id>` followed by one line matches for every id of that shape, giving that id and the stripped line |
| `Mention.ParseBotCommands` | slackish.py:59-69 | an event with a `subtype` yields `(None, None)`, and a command always comes with the event's channel |
| `Mention.AddressedToBot` | slackish.py:65-69 | with a configured bot id, a plain event yields `(remainder, channel)` exactly when it mentions that id, and `(None, None)` otherwise |
| `Mention.NoBotId` | slackish.py:66-69 | without a bot id, an event without a mention yields `(None, channel)` and one with a mention yields `(None, None)` |
| `Mention.CommandForBot` | slackish.py:59-69 | `<@BOT_ID>` followed by a line yields that line stripped, with the channel |
| `Mention.UnmatchableBotId` | slackish.py:48 | a bot id the default pattern cannot capture never yields a command |
| `Kwargs.Pairs` | slackish.py:88-89 | `zip(it, it)` yields `len / 2` pairs, pair `i` being tokens `2i` and `2i+1` |
| `Kwargs.DictOfKeys` | slackish.py:89 | `dict(pairs)` holds a key exactly when some pair carries it |
| `Kwargs.DictOfLastWins` | slackish.py:89 | the value of a key is that of the last pair carrying it |
| `Kwargs.DictOfEntries` | slackish.py:89 | every entry of the dictionary is one of the pairs |
| `Kwargs.DictOfSize` | slackish.py:89 | the dictionary has no more entries than there are pairs |
| `Kwargs.ListToDictKeys` | slackish.py:86-89 | `list_to_dict` holds exactly the keys at even positions that have a token after them |
| `Kwargs.ListToDictSize` | slackish.py:86-89 | `list_to_dict` has at most `len / 2` entries |
| `Kwargs.ListToDictLastWins` | slackish.py:86-89 | token `2i` maps to token `2i+1` when no later pair has the same key |
| `Kwargs.ListToDictFromInput` | slackish.py:86-89 | every key and value comes from the input, a key at an even position and its value right after |
| `Kwargs.TrailingTokenDropped` | slackish.py:89 | an unpaired trailing token is dropped |
| `Kwargs.LaterDuplicateWins` | slackish.py:89 | `k v1 k v2` gives `{k: v2}` |
| `Commands.HelpTexts` | slackish.py:114-115 | one help text per listed command, in registry order, each the entry's own help |
| `Commands.NamesCoverTable` | slackish.py:31-34 | the insertion-order list of names holds exactly the registered commands |
| `Commands.CommandRegistry.constructor` | slackish.py:31 | the registry starts empty |
| `Commands.CommandRegistry.Register` | slackish.py:34 | registering stores the entry under the name, keeps every other entry, appends a new name last and keeps a known name in its place |
| `Dispatch.ErrorText` | slackish.py:120-124 | the text is `Error: ` followed by the message, or by `Something went wrong!` when the message is `None` or empty |
| `Dispatch.InvalidCommandText` | slackish.py:107 | an unknown command's error post reads `Error: Invalid command!` |
| `Dispatch.UnknownCommand` | slackish.py:94-108 | an unknown lower-cased key posts exactly `Error: Invalid command!` and then one help per registry entry in registry order, calls no handler and raises nothing |
| `Dispatch.KnownCommand` | slackish.py:97-101 | a found key calls its handler with `list_to_dict` of the other words; the handler's queued messages are kept whatever it raises; only a non-`KeyError` exception escapes |
| `Dispatch.KeyErrorLikeUnknown` | slackish.py:97-108 | a `KeyError` raised inside a found handler produces the same posts as an unknown command |
| `Dispatch.CaseInsensitiveName` | slackish.py:95 | two command lines whose first words lower-case alike dispatch identically |
| `Dispatch.NothingToDispatch` | slackish.py:94-95 | a line that cannot be split, or splits into no words, posts the apology, the full help and then the queue |
| `Dispatch.HandleFlushesInOrder` | slackish.py:146-154 | what `handle` posts ends with the pending queue and the handler's messages in enqueue order, and is just those when dispatch posted nothing and raised nothing |
| `Bot.Slackish.constructor` | slackish.py:43-52 | a new session has the given registry and bot id, no channel, no transport handles and no posts; the class-level queue keeps whatever was sent before |
| `Bot.Slackish.Send` | slackish.py:54-57 | `send` appends the message to the queue and changes nothing else |
| `Bot.Slackish.SendAll` | slackish.py:54-57 | a handler's successive `send` calls append its messages to the queue, in order |
| `Bot.Slackish.Post` | slackish.py:117-118 | `post` makes one `chat_postMessage` call to the current channel |
| `Bot.Slackish.Error` | slackish.py:120-124 | `error` makes one call, to the current channel, with the error text |
| `Bot.Slackish.CmdHelp` | slackish.py:110-115 | without a name, `cmd_help` posts every help text in registry order; with a registered name, it posts that entry's help; with an unknown name, it raises `KeyError` and posts nothing |
| `Bot.Slackish.Flush` | slackish.py:126-128 | `flush` posts every message in order to the current channel |
| `Bot.Slackish.ReportInvalid` | slackish.py:107-108 | the `except KeyError` branch posts the error and then the full help |
| `Bot.Slackish.CommandToFnCall` | slackish.py:91-108 | `command_to_fn_call` posts, enqueues and raises exactly what `Dispatch.Dispatched` says |
| `Bot.Slackish.Apologize` | slackish.py:150-151 | the `except Exception` branch of `handle` posts the apology and then the full help |
| `Bot.Slackish.Respond` | slackish.py:146-151 | the `try` in `handle` posts the dispatch's replies and then the apology if an exception escaped |
| `Bot.Slackish.Process` | slackish.py:146-154 | after the channel is set, `handle` posts `Dispatch.HandleTexts` to that channel and leaves the queue empty |
| `Bot.Slackish.Handle` | slackish.py:130-154 | an event without a truthy command changes nothing. Otherwise `handle` records the channel and both handles, posts the replies followed by the whole queue in enqueue order to that channel, and empties the queue |
| `Bot.PingParsed` | slackish.py:59-78 | `<@U1> ping` in channel `C1` is the command `ping` for bot `U1` |
| `Bot.PingScenario` | slackish.py:130-154 | the ping example run through a session: the registry holds `ping`, the bot is `U1`, and handling `<@U1> ping` in `C1` posts only `("C1", "pong")` and leaves the queue empty |
| `Bot.PingHandled` | slackish.py:91-154 | with only `ping` registered, a handler that enqueues `pong` yields exactly one post, `pong` |

## Left out

- `SingletonMeta` and its lock (slackish.py:15-26): the model has one explicit session object. The concurrency plumbing is not modelled.
- `serve` (slackish.py:80-84): it runs the `auth.test` call and the blocking event loop, both network I/O. The bot id is a constructor argument instead.
- The Slack transport (`WebClient`, `RTMClient`, the `run_on` decorator): `chat_postMessage` is an append to the post log. A failing or rejected post is not modelled. Nor is an exception raised inside an `except` branch, such as a post that fails while reporting an error.
- `shlex.split`: its source is not part of this model. It is the `Tokenizer` parameter.
- A user-supplied `MENTION_REGEX`: arbitrary regular expressions would need a regex engine. Only the default pattern is modelled.
- The reflection in `Command.__init__` (`__code__.co_varnames`, `__doc__`) and `Command.__call__`: `argnames` is never read. The help text is a plain string, so a command without a docstring (help `None`) is not modelled.
- Handlers are abstract. They can enqueue messages and raise, but do not post directly. A `TypeError` from binding `**kwargs` counts as "another exception".
- An event without a `text` or `channel` key: the `KeyError` it raises outside `handle`'s `try` is not modelled. Events always carry both fields.
- Logging and `print(payload)`.
- `Text.LowerChar` and `Text.Lower`: only ASCII letters are lower-cased. Python's `str.lower` also maps other Unicode letters, sometimes to several characters, and that case table is not modelled.
