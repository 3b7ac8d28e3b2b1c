/**
 * `DiscordBot` (plugins/core_plugins/discord_bot.py): which Discord messages the bot answers,
 * how the bot's mentions are taken out of the text, how a long reply is cut to Discord's
 * 2000-character limit, and the set of channels the bot listens to. The Discord client, its
 * thread and its event loop are outside the model; the bot's own user id and the AI engine's
 * reply are given as parameters.
 */
module DiscordBot {
  import opened Text
  import opened Collections
  import PluginBase

  /** Discord's limit on the length of one message. */
  const MessageLimit: nat := 2000

  // ---------------------------------------------------------------- cutting a long reply

  /** `[response[i:i+2000] for i in range(0, len(response), 2000)]` */
  function Chunks(s: string): (r: seq<string>)
    decreases |s|
  {
    if s == [] then []
    else if |s| <= MessageLimit then [s]
    else [s[..MessageLimit]] + Chunks(s[MessageLimit..])
  }

  /** The messages sent for an AI reply: the reply itself, or its chunks when it is too long. */
  function Replies(response: string): seq<string> {
    if |response| > MessageLimit then Chunks(response) else [response]
  }

  function MinNat(a: nat, b: nat): nat {
    if a <= b then a else b
  }

  /**
   * Chunk `i` is the slice `s[2000 * i : 2000 * i + 2000]`, for each of the `ceil(len(s) / 2000)`
   * starting points `range(0, len(s), 2000)` generates.
   */
  lemma {:induction false} ChunkAt(s: string)
    ensures |Chunks(s)| == (|s| + MessageLimit - 1) / MessageLimit
    ensures forall i :: 0 <= i < |Chunks(s)| ==>
      MessageLimit * i < |s| && Chunks(s)[i] == s[MessageLimit * i .. MinNat(MessageLimit * i + MessageLimit, |s|)]
    decreases |s|
  {
    if |s| > MessageLimit {
      var rest := s[MessageLimit..];
      ChunkAt(rest);
      var c := Chunks(s);
      assert c == [s[..MessageLimit]] + Chunks(rest);
      forall i | 0 <= i < |c|
        ensures MessageLimit * i < |s| && c[i] == s[MessageLimit * i .. MinNat(MessageLimit * i + MessageLimit, |s|)]
      {
        if i > 0 {
          var j := i - 1;
          assert c[i] == Chunks(rest)[j];
          var lo := MessageLimit * j;
          var hi := MinNat(MessageLimit * j + MessageLimit, |rest|);
          assert MessageLimit * i == lo + MessageLimit;
          assert MinNat(MessageLimit * i + MessageLimit, |s|) == hi + MessageLimit;
          SliceOfTail(s, MessageLimit, lo, hi);
        }
      }
    }
  }

  /** A slice of `s[k..]` is the slice of `s` shifted by `k`. */
  lemma SliceOfTail(s: string, k: nat, lo: nat, hi: nat)
    requires k <= |s| && lo <= hi <= |s| - k
    ensures s[k..][lo..hi] == s[lo + k..hi + k]
  {
  }

  /** The chunks joined back together give the text, and each is at most 2000 characters. */
  lemma {:induction false} ChunksJoin(s: string)
    ensures Join("", Chunks(s)) == s
    ensures forall i :: 0 <= i < |Chunks(s)| ==> 0 < |Chunks(s)[i]| <= MessageLimit
    ensures forall i :: 0 <= i < |Chunks(s)| - 1 ==> |Chunks(s)[i]| == MessageLimit
    decreases |s|
  {
    if |s| > MessageLimit {
      var rest := s[MessageLimit..];
      ChunksJoin(rest);
      var c := Chunks(s);
      assert c[1..] == Chunks(rest);
      assert Chunks(rest) != [];
      assert Join("", c) == s[..MessageLimit] + "" + Join("", Chunks(rest));
      assert s == s[..MessageLimit] + rest;
    }
  }

  /**
   * The messages sent for a reply: a reply of up to 2000 characters goes out whole; a longer one
   * goes out in pieces that join back to it, each at most 2000 characters and all but the last
   * exactly 2000.
   */
  lemma RepliesRoundTrip(response: string)
    ensures Join("", Replies(response)) == response
    ensures forall i :: 0 <= i < |Replies(response)| ==> |Replies(response)[i]| <= MessageLimit
    ensures forall i :: 0 <= i < |Replies(response)| - 1 ==> |Replies(response)[i]| == MessageLimit
    ensures |response| <= MessageLimit ==> Replies(response) == [response]
    ensures |response| > MessageLimit ==> |Replies(response)| == (|response| + MessageLimit - 1) / MessageLimit
  {
    if |response| > MessageLimit {
      ChunksJoin(response);
      ChunkAt(response);
    }
  }

  // ---------------------------------------------------------------- mentions

  /** `f'<@{id}>'` */
  function MentionTag(id: int): string {
    "<@" + IntToString(id) + ">"
  }

  /** `f'<@!{id}>'`, the nickname form of a mention. */
  function NickTag(id: int): string {
    "<@!" + IntToString(id) + ">"
  }

  /** `content` after the mention loop has run over `ids`: both forms of each mention replaced by nothing. */
  function WithoutMentions(content: string, ids: seq<int>): string {
    if ids == [] then content
    else
      var id := ids[|ids| - 1];
      Replace(Replace(WithoutMentions(content, ids[..|ids| - 1]), MentionTag(id), ""), NickTag(id), "")
  }

  /** Text with no "<" holds no mention and passes through unchanged. */
  lemma {:induction false} NoMentionUnchanged(content: string, ids: seq<int>)
    requires '<' !in content
    ensures WithoutMentions(content, ids) == content
  {
    if ids != [] {
      var id := ids[|ids| - 1];
      NoMentionUnchanged(content, ids[..|ids| - 1]);
      ReplaceNoFirstChar(content, MentionTag(id), "");
      ReplaceNoFirstChar(content, NickTag(id), "");
    }
  }

  /** A message opening with a mention of the bot, and holding no other "<", loses exactly that mention. */
  lemma LeadingMentionRemoved(id: int, rest: string)
    requires '<' !in rest
    ensures WithoutMentions(MentionTag(id) + rest, [id]) == rest
  {
    var tag := MentionTag(id);
    var nick := NickTag(id);
    var c := tag + rest;
    assert [id][..0] == [];
    assert WithoutMentions(c, [id]) == Replace(Replace(c, tag, ""), nick, "");
    assert tag[0] == '<' && nick[0] == '<';
    ReplaceAt([], tag, rest, "");
    assert [] + tag + rest == c;
    ReplaceNoFirstChar(rest, tag, "");
    assert Replace(c, tag, "") == rest;
    ReplaceNoFirstChar(rest, nick, "");
  }

  // ---------------------------------------------------------------- answering a message

  /** The parts of a Discord message the bot looks at. */
  datatype Message = Message(author: int, channel: int, isDirect: bool, mentions: seq<int>, content: string)

  /**
   * The bot answers a message not written by itself, from a listened-to channel (any channel
   * when the set is empty), that is a direct message or mentions the bot.
   */
  predicate Answers(bot: int, enabledChannels: set<int>, m: Message) {
    m.author != bot && (enabledChannels == {} || m.channel in enabledChannels) && (m.isDirect || bot in m.mentions)
  }

  /** The text handed to the AI engine: with the mentions taken out and stripped, when the bot was mentioned. */
  function Prompt(bot: int, m: Message): string {
    if bot in m.mentions then Strip(WithoutMentions(m.content, m.mentions)) else m.content
  }

  /** `handle_message`: nothing for an empty prompt, else the reply to it cut into messages. */
  function HandleReplies(bot: int, m: Message, respond: string -> string): (r: seq<string>) {
    var prompt := Prompt(bot, m);
    if prompt == "" then [] else Replies(respond(prompt))
  }

  lemma NoChannelEmpty(s: set<int>)
    requires forall x :: x !in s
    ensures s == {}
  {
    assert forall x :: x in s <==> x in {};
  }

  /** A non-empty set of channels has one to pick. */
  lemma HasChannel(s: set<int>)
    requires s != {}
    ensures exists x :: x in s
  {
    if forall x :: x !in s {
      NoChannelEmpty(s);
      assert false;
    }
  }

  /** The configured `integrations.discord.channel_id`. */
  datatype ChannelSetting = Unset | ChannelId(id: int) | Unparsable

  class Bot {
    const base: PluginBase.Plugin
    /** `self.enabled_channels` */
    var enabledChannels: set<int>
    /** The client thread has been started. */
    var started: bool

    constructor ()
      ensures fresh(base) && base.name == "discord_bot" && base.enabled
      ensures enabledChannels == {} && !started
    {
      base := new PluginBase.Plugin("discord_bot");
      enabledChannels := {};
      started := false;
    }

    /**
     * `initialize`: true without starting anything when the integration is off, false for an
     * empty token; otherwise the client is started, the configured channel, if any, is listened
     * to, and a channel id that is not an integer makes the result false.
     */
    method Initialize(discordEnabled: bool, token: string, channel: ChannelSetting) returns (ok: bool)
      modifies this
      ensures !discordEnabled ==> ok && enabledChannels == old(enabledChannels) && started == old(started)
      ensures discordEnabled && token == "" ==> !ok && enabledChannels == old(enabledChannels) && started == old(started)
      ensures discordEnabled && token != "" ==> (started && (ok <==> !channel.Unparsable?) &&
        enabledChannels == old(enabledChannels) + (if channel.ChannelId? then {channel.id} else {}))
    {
      if !discordEnabled {
        return true;
      }
      if token == "" {
        return false;
      }
      started := true;
      match channel
      case Unset =>
        ok := true;
      case ChannelId(id) =>
        enabledChannels := enabledChannels + {id};
        ok := true;
      case Unparsable =>
        ok := false;
    }

    /** `add_enabled_channel` */
    method AddEnabledChannel(id: int)
      modifies this
      ensures enabledChannels == old(enabledChannels) + {id} && started == old(started)
    {
      enabledChannels := enabledChannels + {id};
    }

    /** `remove_enabled_channel`: `discard`, so an absent id changes nothing. */
    method RemoveEnabledChannel(id: int)
      modifies this
      ensures enabledChannels == old(enabledChannels) - {id} && started == old(started)
    {
      enabledChannels := enabledChannels - {id};
    }

    /** `get_enabled_channels`: each listened-to channel once, in no promised order. */
    method GetEnabledChannels() returns (ids: seq<int>)
      ensures forall x :: x in ids <==> x in enabledChannels
      ensures forall i, j :: 0 <= i < j < |ids| ==> ids[i] != ids[j]
    {
      ids := Listed(enabledChannels);
    }

    /** `list(s)`: the members of a set, each once. */
    static method Listed(s: set<int>) returns (ids: seq<int>)
      ensures forall x :: x in ids <==> x in s
      ensures forall i, j :: 0 <= i < j < |ids| ==> ids[i] != ids[j]
    {
      ids := [];
      var rest := s;
      while rest != {}
        invariant rest <= s
        invariant forall y :: y in ids <==> y in s - rest
        invariant forall i, j :: 0 <= i < j < |ids| ==> ids[i] != ids[j]
        decreases rest
      {
        HasChannel(rest);
        var x :| x in rest;
        ids := ids + [x];
        rest := rest - {x};
      }
    }

    /** The mention loop of `handle_message`. */
    static method StripMentions(content: string, ids: seq<int>) returns (r: string)
      ensures r == WithoutMentions(content, ids)
    {
      r := content;
      for i := 0 to |ids|
        invariant r == WithoutMentions(content, ids[..i])
      {
        assert ids[..i + 1][..i] == ids[..i];
        r := Replace(Replace(r, MentionTag(ids[i]), ""), NickTag(ids[i]), "");
      }
      assert ids[..|ids|] == ids;
    }

    /** `on_message` followed by `handle_message`: the messages the bot sends back. */
    method OnMessage(bot: int, m: Message, respond: string -> string) returns (replies: seq<string>)
      ensures replies == if Answers(bot, enabledChannels, m) then HandleReplies(bot, m, respond) else []
    {
      if m.author == bot {
        return [];
      }
      if enabledChannels != {} && m.channel !in enabledChannels {
        return [];
      }
      if !m.isDirect && bot !in m.mentions {
        return [];
      }
      var content := m.content;
      if bot in m.mentions {
        content := StripMentions(content, m.mentions);
        content := Strip(content);
      }
      if content == "" {
        return [];
      }
      var response := respond(content);
      if |response| > MessageLimit {
        replies := Chunks(response);
      } else {
        replies := [response];
      }
    }
  }

  /**
   * The gate, case by case: the bot's own messages and messages from channels outside a
   * non-empty listening set are never answered; a direct message is answered; a channel message
   * only when it mentions the bot; an answer is never empty unless the prompt is.
   */
  lemma AnswerCases(bot: int, enabledChannels: set<int>, m: Message, respond: string -> string)
    ensures m.author == bot ==> !Answers(bot, enabledChannels, m)
    ensures enabledChannels != {} && m.channel !in enabledChannels ==> !Answers(bot, enabledChannels, m)
    ensures m.author != bot && (enabledChannels == {} || m.channel in enabledChannels) ==>
      (Answers(bot, enabledChannels, m) <==> m.isDirect || bot in m.mentions)
    ensures HandleReplies(bot, m, respond) == [] <==> Prompt(bot, m) == ""
  {
    var prompt := Prompt(bot, m);
    if prompt != "" {
      RepliesRoundTrip(respond(prompt));
    }
  }
}
