/**
 * `command_to_fn_call`, `error` and the replies of `handle`, as functions
 * of the registry, the tokenizer and the command line: what gets posted
 * right away, what handlers enqueue, and whether an exception escapes to
 * `handle`.
 */
module Dispatch {
  import opened Wrappers
  import opened Text
  import opened Kwargs
  import opened Commands

  const DefaultErrorMessage := "Something went wrong!"
  const InvalidCommand := "Invalid command!"
  const Fallback := "I'm sorry, I don't understand! "

  /** `shlex.split`: the words of a command line, or `None` where it raises
      (an unclosed quotation, for one). */
  type Tokenizer = string -> Option<seq<string>>

  /** Python truthiness of an optional string: present and not empty. */
  predicate Truthy(s: Option<string>) {
    s.Some? && s.value != ""
  }

  /** `error(message)`: `"Error: "` and the message, or the default message
      when none (or an empty one) is given. */
  function ErrorText(message: Option<string>): (t: string)
    ensures |t| > 7 && t[..7] == "Error: "
    ensures Truthy(message) ==> t[7..] == message.value
    ensures !Truthy(message) ==> t[7..] == DefaultErrorMessage
  {
    "Error: " + (if Truthy(message) then message.value else DefaultErrorMessage)
  }

  /** The text of the error an unknown command gets. */
  lemma InvalidCommandText()
    ensures ErrorText(Some(InvalidCommand)) == "Error: Invalid command!"
  {
    var t := "Error: Invalid command!";
    var e := ErrorText(Some(InvalidCommand));
    assert e == "Error: " + InvalidCommand;
    forall i | 0 <= i < |t| ensures e[i] == t[i] {
      if i < 7 { assert e[i] == "Error: "[i]; } else { assert e[i] == InvalidCommand[i - 7]; }
    }
  }

  /** The effect of one `command_to_fn_call`: texts posted at once, texts
      appended to the queue, and whether an exception escaped. */
  datatype Dispatch = Dispatch(posted: seq<string>, enqueued: seq<string>, escaped: bool)

  /** The error post and the full help that follow an unknown command. */
  function InvalidReplies(names: seq<string>, table: map<string, Entry>): seq<string>
    requires WellFormed(names, table)
  {
    [ErrorText(Some(InvalidCommand))] + HelpTexts(names, table)
  }

  /** `command_to_fn_call(command)`: split, lower-case the first word, look
      it up; an unknown key or a `KeyError` from the handler gives the error
      post and the full help; any other exception (from `shlex.split`, from
      indexing an empty word list, from the handler) escapes. */
  function Dispatched(names: seq<string>, table: map<string, Entry>, split: Tokenizer, command: string): Dispatch
    requires WellFormed(names, table)
  {
    match split(command)
    case None => Dispatch([], [], true)
    case Some(words) =>
      if words == [] then Dispatch([], [], true)
      else
        var key := Lower(words[0]);
        if key !in table then Dispatch(InvalidReplies(names, table), [], false)
        else
          var out := table[key].cmd(ListToDict(words[1..]));
          match out.raised
          case None => Dispatch([], out.enqueued, false)
          case Some(KeyError) => Dispatch(InvalidReplies(names, table), out.enqueued, false)
          case Some(OtherError) => Dispatch([], out.enqueued, true)
  }

  /** Every text `handle` posts for a command line, in order, when `queue`
      was pending before: the dispatch's own posts, the apology and the full
      help if an exception escaped, then the whole queue. */
  function HandleTexts(names: seq<string>, table: map<string, Entry>, split: Tokenizer, command: string,
                       queue: seq<string>): seq<string>
    requires WellFormed(names, table)
  {
    var d := Dispatched(names, table, split, command);
    d.posted + Apology(names, table, d.escaped) + (queue + d.enqueued)
  }

  /** What `handle` posts when an exception escaped dispatch: the apology and the full help. */
  function Apology(names: seq<string>, table: map<string, Entry>, escaped: bool): seq<string>
    requires WellFormed(names, table)
  {
    if escaped then [Fallback] + HelpTexts(names, table) else []
  }

  /** An unknown command posts exactly `Error: Invalid command!` and then one
      help text per registered command, in registry order, and calls nothing. */
  lemma UnknownCommand(names: seq<string>, table: map<string, Entry>, split: Tokenizer, command: string,
                       words: seq<string>)
    requires WellFormed(names, table)
    requires split(command) == Some(words) && words != [] && Lower(words[0]) !in table
    ensures var d := Dispatched(names, table, split, command);
      && d == Dispatch(["Error: Invalid command!"] + HelpTexts(names, table), [], false)
      && |d.posted| == 1 + |table|
  {
    InvalidCommandText();
    assert Dispatched(names, table, split, command) == Dispatch(InvalidReplies(names, table), [], false);
  }

  /** A found command calls its handler with the paired remaining words;
      what it enqueues is kept whatever it raises. */
  lemma KnownCommand(names: seq<string>, table: map<string, Entry>, split: Tokenizer, command: string,
                     words: seq<string>)
    requires WellFormed(names, table)
    requires split(command) == Some(words) && words != [] && Lower(words[0]) in table
    ensures var d := Dispatched(names, table, split, command);
      var out := table[Lower(words[0])].cmd(ListToDict(words[1..]));
      && d.enqueued == out.enqueued
      && (d.escaped <==> out.raised == Some(OtherError))
      && (out.raised == Some(KeyError) ==> d.posted == InvalidReplies(names, table))
      && (out.raised != Some(KeyError) ==> d.posted == [])
  {
  }

  /** A `KeyError` inside a handler is reported exactly as an unknown command. */
  lemma KeyErrorLikeUnknown(names: seq<string>, table: map<string, Entry>, split: Tokenizer,
                            found: string, missing: string, words: seq<string>, other: seq<string>)
    requires WellFormed(names, table)
    requires split(found) == Some(words) && words != [] && Lower(words[0]) in table
    requires table[Lower(words[0])].cmd(ListToDict(words[1..])).raised == Some(KeyError)
    requires split(missing) == Some(other) && other != [] && Lower(other[0]) !in table
    ensures Dispatched(names, table, split, found).posted == Dispatched(names, table, split, missing).posted
    ensures !Dispatched(names, table, split, found).escaped
  {
  }

  /** The command name is matched case-insensitively: only its lowered form matters. */
  lemma CaseInsensitiveName(names: seq<string>, table: map<string, Entry>, split: Tokenizer,
                            c1: string, c2: string, w1: string, w2: string, args: seq<string>)
    requires WellFormed(names, table)
    requires split(c1) == Some([w1] + args) && split(c2) == Some([w2] + args)
    requires Lower(w1) == Lower(w2)
    ensures Dispatched(names, table, split, c1) == Dispatched(names, table, split, c2)
  {
    assert ([w1] + args)[1..] == args;
    assert ([w2] + args)[1..] == args;
  }

  /** A line that cannot be split, or splits into no words at all, reaches
      `handle`'s fallback: the apology, the full help, then the pending queue. */
  lemma NothingToDispatch(names: seq<string>, table: map<string, Entry>, split: Tokenizer, command: string,
                          queue: seq<string>)
    requires WellFormed(names, table)
    requires split(command) == None || split(command) == Some([])
    ensures HandleTexts(names, table, split, command, queue) == [Fallback] + HelpTexts(names, table) + queue
  {
    assert Dispatched(names, table, split, command) == Dispatch([], [], true);
  }

  /** Apart from the fixed replies, `handle` posts nothing but the pending
      queue and what the handler enqueued, and all of them, in that order. */
  lemma HandleFlushesInOrder(names: seq<string>, table: map<string, Entry>, split: Tokenizer, command: string,
                             queue: seq<string>)
    requires WellFormed(names, table)
    ensures var d := Dispatched(names, table, split, command);
      var texts := HandleTexts(names, table, split, command, queue);
      && |texts| >= |queue| + |d.enqueued|
      && texts[|texts| - |queue| - |d.enqueued|..] == queue + d.enqueued
      && (!d.escaped && d.posted == [] ==> texts == queue + d.enqueued)
  {
  }
}
