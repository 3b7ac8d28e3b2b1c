/**
 * The conversation helpers of the recency store (memory/basic_memory.py): conversation turns and
 * user facts stored as records, and the stored turns read back as chat messages.
 */
module BasicMemory {
  import opened Text
  import opened Collections
  import opened Memories

  const UserPrefix: string := "User: "
  const AiSeparator: string := "\nAI: "

  /** The content of a stored conversation turn. */
  function ConversationContent(userInput: string, aiResponse: string): string {
    UserPrefix + userInput + AiSeparator + aiResponse
  }

  /** One chat message of the conversation history. */
  datatype Message = Message(role: string, content: string, timestamp: int)

  /**
   * The messages one record contributes to the history: a conversation record containing
   * "User:" whose content splits on "\nAI: " into exactly two parts gives the user part (with
   * every "User: " removed) and the assistant part; any other record gives none.
   */
  function Exchange(m: Memory): (r: seq<Message>)
    ensures r == [] || |r| == 2
    ensures |r| == 2 ==>
      (r[0].role == "user" && r[1].role == "assistant"
       && r[0].timestamp == m.timestamp && r[1].timestamp == m.timestamp)
  {
    if m.memoryType == "conversation" && Contains(m.content, "User:") then
      var parts := SplitOn(m.content, AiSeparator);
      if |parts| == 2 then
        [Message("user", Replace(parts[0], UserPrefix, ""), m.timestamp),
         Message("assistant", parts[1], m.timestamp)]
      else []
    else []
  }

  /** The messages the history loop collects from `memories`, in order. */
  function HistoryEntries(memories: seq<Memory>): (r: seq<Message>)
    ensures |r| % 2 == 0 && |r| <= 2 * |memories|
  {
    if memories == [] then []
    else HistoryEntries(memories[..|memories| - 1]) + Exchange(memories[|memories| - 1])
  }

  function MessageTimestampLe(a: Message, b: Message): bool {
    a.timestamp <= b.timestamp
  }

  /** "\nAI: " cannot start inside a text that does not contain it and run into a following copy. */
  lemma NoSeparatorBefore(x: string, rest: string)
    requires !Contains(x, AiSeparator)
    ensures forall p :: 0 <= p < |x| ==> !OccursAt(x + AiSeparator + rest, AiSeparator, p)
  {
    var t := x + AiSeparator + rest;
    ContainsIff(x, AiSeparator);
    forall p | 0 <= p < |x| ensures !OccursAt(t, AiSeparator, p) {
      if p + |AiSeparator| <= |x| {
        assert t[p..p + |AiSeparator|] == x[p..p + |AiSeparator|];
        assert !OccursAt(x, AiSeparator, p);
      } else {
        assert t[|x|] == '\n';
        assert t[p..p + |AiSeparator|][|x| - p] == t[|x|];
        assert AiSeparator[|x| - p] != '\n';
      }
    }
  }

  /** "User: " followed by a text without "\nAI: " does not contain "\nAI: " either. */
  lemma PrefixedNoSeparator(u: string)
    requires !Contains(u, AiSeparator)
    ensures !Contains(UserPrefix + u, AiSeparator)
  {
    var x := UserPrefix + u;
    ContainsIff(u, AiSeparator);
    ContainsIff(x, AiSeparator);
    forall p | 0 <= p ensures !OccursAt(x, AiSeparator, p) {
      if p + |AiSeparator| > |x| {
      } else if p < |UserPrefix| {
        assert x[p..p + |AiSeparator|][0] == x[p] == UserPrefix[p] != '\n';
      } else {
        assert x[p..p + |AiSeparator|] == u[p - |UserPrefix|..p - |UserPrefix| + |AiSeparator|];
        assert !OccursAt(u, AiSeparator, p - |UserPrefix|);
      }
    }
  }

  /** A turn whose parts do not contain "\nAI: " splits back into the prefixed input and the reply. */
  lemma ConversationSplits(userInput: string, aiResponse: string)
    requires !Contains(userInput, AiSeparator) && !Contains(aiResponse, AiSeparator)
    ensures SplitOn(ConversationContent(userInput, aiResponse), AiSeparator) == [UserPrefix + userInput, aiResponse]
  {
    var x := UserPrefix + userInput;
    assert ConversationContent(userInput, aiResponse) == x + AiSeparator + aiResponse;
    PrefixedNoSeparator(userInput);
    NoSeparatorBefore(x, aiResponse);
    SplitOnFirst(x, AiSeparator, aiResponse);
    SplitOnAbsent(aiResponse, AiSeparator);
  }

  /** Removing "User: " from the prefixed input gives the input back when it has no "User: ". */
  lemma UserPrefixRemoved(userInput: string)
    requires !Contains(userInput, UserPrefix)
    ensures Replace(UserPrefix + userInput, UserPrefix, "") == userInput
  {
    var x := UserPrefix + userInput;
    assert x[..|UserPrefix|] == UserPrefix && x[|UserPrefix|..] == userInput;
    ReplaceAbsent(userInput, UserPrefix, "");
  }

  /**
   * A conversation turn whose user input contains neither "\nAI: " nor "User: " and whose reply
   * does not contain "\nAI: " reads back as exactly that user message and that reply.
   */
  lemma ConversationRoundTrip(userInput: string, aiResponse: string, emotionalContext: string, importance: real, now: int)
    requires !Contains(userInput, AiSeparator) && !Contains(userInput, UserPrefix)
    requires !Contains(aiResponse, AiSeparator)
    ensures Exchange(NewMemory(ConversationContent(userInput, aiResponse), "conversation", emotionalContext, importance, now))
      == [Message("user", userInput, now), Message("assistant", aiResponse, now)]
  {
    var content := ConversationContent(userInput, aiResponse);
    assert content[..5] == "User:";
    assert StartsWith(content, "User:");
    ConversationSplits(userInput, aiResponse);
    UserPrefixRemoved(userInput);
  }

  /**
   * A reply containing "\nAI: " splits into more than two parts, so the whole turn is left out
   * of the history.
   */
  lemma ReplyWithSeparatorDropped(now: int)
    ensures Exchange(NewMemory(ConversationContent("hi", AiSeparator), "conversation", "", 0.7, now)) == []
  {
    var x := UserPrefix + "hi";
    var content := ConversationContent("hi", AiSeparator);
    assert content == x + AiSeparator + ("" + AiSeparator + "");
    assert content[..5] == "User:";
    assert StartsWith(content, "User:");
    assert !Contains("hi", AiSeparator);
    PrefixedNoSeparator("hi");
    NoSeparatorBefore(x, "" + AiSeparator + "");
    SplitOnFirst(x, AiSeparator, "" + AiSeparator + "");
    NoSeparatorBefore("", "");
    SplitOnFirst("", AiSeparator, "");
    assert SplitOn("", AiSeparator) == [""];
  }

  /** The history `get_conversation_history` returns for a store holding `memories`. */
  function History(memories: seq<Memory>, limit: int): seq<Message> {
    PySliceFrom(SortBy(HistoryEntries(Recent(memories, limit)), MessageTimestampLe), -limit * 2)
  }

  /**
   * The history is oldest first; for a non-negative `limit` it holds every message of the
   * `limit` newest records (user and assistant messages in equal number), at most `2 * limit`.
   */
  lemma HistoryProperties(memories: seq<Memory>, limit: int)
    ensures forall i, j :: 0 <= i < j < |History(memories, limit)| ==>
      History(memories, limit)[i].timestamp <= History(memories, limit)[j].timestamp
    ensures 0 <= limit ==>
      multiset(History(memories, limit)) == multiset(HistoryEntries(Recent(memories, limit)))
    ensures 0 <= limit ==> |History(memories, limit)| <= 2 * limit && |History(memories, limit)| % 2 == 0
  {
    var entries := HistoryEntries(Recent(memories, limit));
    var sorted := SortBy(entries, MessageTimestampLe);
    var k := PyBound(|sorted|, -limit * 2);
    var h := History(memories, limit);
    assert h == sorted[k..];
    OldestFirst(entries, k);
    if 0 <= limit {
      assert |Recent(memories, limit)| <= limit;
      assert k == 0;
    }
  }

  /** Sorting messages by timestamp puts them oldest first, in every suffix too. */
  lemma OldestFirst(entries: seq<Message>, k: nat)
    requires k <= |entries|
    ensures forall i, j :: 0 <= i < j < |entries| - k ==>
      SortBy(entries, MessageTimestampLe)[k..][i].timestamp <= SortBy(entries, MessageTimestampLe)[k..][j].timestamp
  {
    var sorted := SortBy(entries, MessageTimestampLe);
    assert TotalPreorder(MessageTimestampLe);
    SortBySorted(entries, MessageTimestampLe);
    forall i, j | 0 <= i < j < |entries| - k ensures sorted[k..][i].timestamp <= sorted[k..][j].timestamp {
      assert MessageTimestampLe(sorted[k + i], sorted[k + j]);
    }
  }

  class BasicMemoryManager {
    /** The store this manager extends with conversation helpers. */
    const store: MemoryManager

    constructor (store: MemoryManager)
      ensures this.store == store
    {
      this.store := store;
    }

    /** `add_conversation_memory`: stores the turn as a conversation record of importance 0.7. */
    method AddConversationMemory(userInput: string, aiResponse: string, emotionalContext: string, now: int)
      returns (id: string)
      modifies store, store.vectorMemory
      ensures var m := NewMemory(ConversationContent(userInput, aiResponse), "conversation", emotionalContext, 0.7, now);
        && store.memories == Evict(old(store.memories), store.maxMemories) + [m]
        && (store.vectorMemory != null ==> Mirrored(old(store.vectorMemory.memories), store.vectorMemory.memories, m, now))
      ensures id == "memory_" + NatToString(|store.memories|)
    {
      var memory := NewMemory(ConversationContent(userInput, aiResponse), "conversation", emotionalContext, 0.7, now);
      id := store.AddMemory(memory, now);
    }

    /** `add_user_fact`: stores "User fact: " and the fact as a fact record. */
    method AddUserFact(fact: string, emotionalContext: string, importance: real, now: int)
      returns (id: string)
      modifies store, store.vectorMemory
      ensures var m := NewMemory("User fact: " + fact, "fact", emotionalContext, importance, now);
        && store.memories == Evict(old(store.memories), store.maxMemories) + [m]
        && (store.vectorMemory != null ==> Mirrored(old(store.vectorMemory.memories), store.vectorMemory.memories, m, now))
      ensures id == "memory_" + NatToString(|store.memories|)
    {
      var memory := NewMemory("User fact: " + fact, "fact", emotionalContext, importance, now);
      id := store.AddMemory(memory, now);
    }

    /**
     * `get_conversation_history`: the messages of the `limit` newest records, oldest first; for
     * a non-negative `limit` the final `[-limit * 2:]` cut keeps every one of them.
     */
    method GetConversationHistory(limit: int) returns (r: seq<Message>)
      ensures r == History(store.memories, limit)
      ensures 0 <= limit ==> multiset(r) == multiset(HistoryEntries(Recent(store.memories, limit)))
      ensures 0 <= limit ==> |r| <= 2 * limit && |r| % 2 == 0
      ensures forall i, j :: 0 <= i < j < |r| ==> r[i].timestamp <= r[j].timestamp
    {
      var recent := store.GetRecentMemories(limit);
      var conversations := CollectExchanges(recent);
      r := PySliceFrom(SortBy(conversations, MessageTimestampLe), -limit * 2);
      HistoryProperties(store.memories, limit);
    }

    /** The loop of `get_conversation_history` that reads each record back as messages. */
    static method CollectExchanges(recent: seq<Memory>) returns (conversations: seq<Message>)
      ensures conversations == HistoryEntries(recent)
    {
      conversations := [];
      for i := 0 to |recent|
        invariant conversations == HistoryEntries(recent[..i])
      {
        assert recent[..i + 1][..i] == recent[..i];
        assert HistoryEntries(recent[..i + 1]) == HistoryEntries(recent[..i]) + Exchange(recent[i]);
        var memory := recent[i];
        if memory.memoryType == "conversation" && Contains(memory.content, "User:") {
          var parts := SplitOn(memory.content, AiSeparator);
          if |parts| == 2 {
            var userPart := Replace(parts[0], UserPrefix, "");
            conversations := conversations + [Message("user", userPart, memory.timestamp)];
            conversations := conversations + [Message("assistant", parts[1], memory.timestamp)];
          }
        }
      }
      assert recent[..|recent|] == recent;
    }
  }
}
