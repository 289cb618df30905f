/**
 * Direct-mention parsing with the default pattern `^<@(|[WU].+?)>(.*)`:
 * a message addresses someone when it starts with `<@`, then either `>`
 * straight away (an empty id) or a `W`/`U` followed by at least one more
 * character, lazily up to the first `>`, none of them a newline.
 */
module Mention {
  import opened Wrappers
  import opened Text

  /** Groups 1 and 2 of a match: the mentioned id and the stripped remainder. */
  datatype Mention = Mention(id: string, rest: string)

  /** An inbound `message` event: the `subtype` key (present or not), `text` and `channel`. */
  datatype Event = Event(subtype: Option<string>, text: string, channel: string)

  /** `k` is where the `>` closing the mention stands, read off the pattern directly. */
  predicate ClosesAt(text: string, k: nat) {
    && 3 <= |text| && text[0] == '<' && text[1] == '@'
    && k < |text| && text[k] == '>'
    && (|| k == 2
        || (&& 4 <= k && (text[2] == 'W' || text[2] == 'U')
            && (forall m :: 3 <= m < k ==> text[m] != '\n')
            && (forall m :: 4 <= m < k ==> text[m] != '>')))
  }

  /** The lazy `.+?>`: `text[j]` is the next character `.+?` consumes; the
      match closes at the first `>` after it, and fails at a newline or at
      the end of the text. */
  function LazyClose(text: string, j: nat): (k: Option<nat>)
    requires 3 <= j
    decreases |text| - j
    ensures k.Some? ==> j < k.value < |text| && text[k.value] == '>'
  {
    if j >= |text| || text[j] == '\n' then None
    else if j + 1 < |text| && text[j + 1] == '>' then Some(j + 1)
    else LazyClose(text, j + 1)
  }

  /** Index of the `>` that ends the mention group, if the text matches. */
  function MatchEnd(text: string): (k: Option<nat>)
    ensures k.Some? ==> 2 <= k.value < |text| && text[k.value] == '>' && text[..2] == "<@"
  {
    if |text| < 3 || text[0] != '<' || text[1] != '@' then None
    else if text[2] == '>' then Some(2)
    else if text[2] == 'W' || text[2] == 'U' then LazyClose(text, 3)
    else None
  }

  lemma {:induction false} LazyCloseExact(text: string, j: nat, k: nat)
    requires 3 <= j
    decreases |text| - j
    ensures LazyClose(text, j) == Some(k) <==>
      (&& j < k < |text| && text[k] == '>'
       && (forall m :: j <= m < k ==> text[m] != '\n')
       && (forall m :: j + 1 <= m < k ==> text[m] != '>'))
  {
    if j >= |text| || text[j] == '\n' {
    } else if j + 1 < |text| && text[j + 1] == '>' {
    } else {
      LazyCloseExact(text, j + 1, k);
    }
  }

  /** The scan finds exactly the closing position the pattern describes. */
  lemma MatchEndExact(text: string, k: nat)
    ensures MatchEnd(text) == Some(k) <==> ClosesAt(text, k)
  {
    if |text| >= 3 && text[0] == '<' && text[1] == '@' && text[2] != '>' && (text[2] == 'W' || text[2] == 'U') {
      LazyCloseExact(text, 3, k);
    }
  }

  /** `parse_direct_mention`: the mentioned id and the stripped rest of the
      line, or `None` when the text does not start with a mention. */
  function ParseDirectMention(text: string): (r: Option<Mention>)
    ensures r.Some? ==> |text| >= 3 && text[..2] == "<@"
  {
    match MatchEnd(text)
    case None => None
    case Some(k) => Some(Mention(text[2..k], Strip(TakeLine(text[k + 1..]))))
  }

  /** A match is exactly a closing position the pattern allows, with the id
      between `<@` and that `>` and the remainder taken from the same line. */
  lemma ParseDirectMentionMatch(text: string, k: nat)
    requires 2 <= k < |text|
    ensures ClosesAt(text, k) <==>
      ParseDirectMention(text) == Some(Mention(text[2..k], Strip(TakeLine(text[k + 1..]))))
  {
    MatchEndExact(text, k);
    if ParseDirectMention(text) == Some(Mention(text[2..k], Strip(TakeLine(text[k + 1..])))) {
      var k' := MatchEnd(text).value;
      MatchEndExact(text, k');
      assert |text[2..k']| == |text[2..k]|;
    }
  }

  /** No closing position, no match. */
  lemma ParseDirectMentionNone(text: string)
    ensures ParseDirectMention(text) == None <==> forall k :: !ClosesAt(text, k)
  {
    if ParseDirectMention(text) == None {
      forall k ensures !ClosesAt(text, k) { MatchEndExact(text, k); }
    } else {
      MatchEndExact(text, MatchEnd(text).value);
    }
  }

  /** The ids the default pattern can capture: empty, or a `W`/`U` and at
      least one more character, with no newline and no `>` after the first two
      characters. */
  predicate PatternId(id: string) {
    || id == []
    || (&& |id| >= 2 && (id[0] == 'W' || id[0] == 'U')
        && (forall m :: 0 <= m < |id| ==> id[m] != '\n')
        && (forall m :: 2 <= m < |id| ==> id[m] != '>'))
  }

  /** Every id a match yields has that shape. */
  lemma MentionedIdShape(text: string)
    requires ParseDirectMention(text).Some?
    ensures PatternId(ParseDirectMention(text).value.id)
  {
    var k := MatchEnd(text).value;
    IdShapeAt(text, k);
  }

  lemma IdShapeAt(text: string, k: nat)
    requires MatchEnd(text) == Some(k)
    ensures PatternId(text[2..k])
  {
    MatchEndExact(text, k);
  }

  /** Conversely, `<@id>` followed by the rest of a line is a match for
      every id of that shape. */
  lemma MentionOf(id: string, rest: string)
    requires PatternId(id) && '\n' !in rest
    ensures ParseDirectMention("<@" + id + ">" + rest) == Some(Mention(id, Strip(rest)))
  {
    var text := "<@" + id + ">" + rest;
    var k := 2 + |id|;
    assert ClosesAt(text, k) by {
      assert forall m :: 2 <= m < k ==> text[m] == id[m - 2];
      assert text[0] == '<' && text[1] == '@' && text[k] == '>';
    }
    assert text[2..k] == id;
    assert text[k + 1..] == rest;
    LineWithoutNewline(rest);
    ParseDirectMentionMatch(text, k);
  }

  /** `parse_bot_commands`: an event with a `subtype` is never a command;
      otherwise the remainder and the channel are returned when the mentioned
      id equals the configured bot id. An absent id and a failed match compare
      equal, as `None == None` does in Python. */
  function ParseBotCommands(botId: Option<string>, event: Event): (r: (Option<string>, Option<string>))
    ensures event.subtype.Some? ==> r == (None, None)
    ensures r.0.Some? ==> r.1 == Some(event.channel)
  {
    if event.subtype.Some? then (None, None)
    else
      var m := ParseDirectMention(event.text);
      var userId := if m.Some? then Some(m.value.id) else None;
      if userId == botId then (if m.Some? then Some(m.value.rest) else None, Some(event.channel))
      else (None, None)
  }

  /** With a configured bot id, a plain message yields a command exactly when
      it mentions that id; the command is the stripped remainder. */
  lemma AddressedToBot(botId: string, event: Event)
    requires event.subtype == None
    ensures var m := ParseDirectMention(event.text);
      ParseBotCommands(Some(botId), event) ==
        if m.Some? && m.value.id == botId then (Some(m.value.rest), Some(event.channel)) else (None, None)
  {
  }

  /** Without a configured bot id, a message that mentions nobody yields no
      command but still returns its channel, and one that mentions someone
      yields nothing. */
  lemma NoBotId(event: Event)
    requires event.subtype == None
    ensures ParseDirectMention(event.text) == None ==> ParseBotCommands(None, event) == (None, Some(event.channel))
    ensures ParseDirectMention(event.text) != None ==> ParseBotCommands(None, event) == (None, None)
  {
  }

  /** A plain message `<@BOT_ID>` followed by a line is a command for the
      bot, namely that line stripped (`"<@U42> foo bar"` yields `"foo bar"`). */
  lemma CommandForBot(botId: string, rest: string, channel: string)
    requires PatternId(botId) && '\n' !in rest
    ensures ParseBotCommands(Some(botId), Event(None, "<@" + botId + ">" + rest, channel)) ==
      (Some(Strip(rest)), Some(channel))
  {
    MentionOf(botId, rest);
  }

  /** A bot id outside that shape (`BOT1`, say) is never matched, so such a
      bot never sees a command, whatever the text. */
  lemma UnmatchableBotId(botId: string, event: Event)
    requires !PatternId(botId)
    ensures ParseBotCommands(Some(botId), event) == (None, None)
  {
    if event.subtype == None && ParseDirectMention(event.text).Some? {
      MentionedIdShape(event.text);
    }
  }
}
