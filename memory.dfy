/**
 * The recency store (memory/memory_manager.py): an in-process list of memory records, bounded
 * by `maxMemories` with least-important-first eviction, searched by substring or, when an
 * embedding index is attached, semantically; every added record is mirrored into the index.
 */
module Memories {
  import opened Text
  import opened Collections
  import VectorDb

  /** A memory record; `timestamp` is the clock reading taken when the record was made. */
  datatype Memory = Memory(
    content: string,
    memoryType: string,
    emotionalContext: string,
    importance: real,
    timestamp: int,
    tags: seq<string>)

  /** `[tag for tag in tags if tag]` */
  function NonEmpty(tags: seq<string>): (r: seq<string>)
    ensures forall t :: t in r <==> t in tags && t != ""
  {
    if tags == [] then []
    else if tags[0] != "" then [tags[0]] + NonEmpty(tags[1..])
    else NonEmpty(tags[1..])
  }

  lemma {:induction false} NonEmptyAppend(a: seq<string>, b: seq<string>)
    ensures NonEmpty(a + b) == NonEmpty(a) + NonEmpty(b)
  {
    if a != [] {
      assert (a + b)[0] == a[0] && (a + b)[1..] == a[1..] + b;
      NonEmptyAppend(a[1..], b);
    } else {
      assert a + b == b;
    }
  }

  lemma {:induction false} NonEmptyKeeps(tags: seq<string>)
    requires forall i :: 0 <= i < |tags| ==> tags[i] != ""
    ensures NonEmpty(tags) == tags
  {
    if tags != [] {
      NonEmptyKeeps(tags[1..]);
    }
  }

  /**
   * `Memory._generate_tags`: the type and the emotional context when they are not empty, then
   * the first five words longer than four characters of the lowered content; no tag is empty.
   */
  function GenerateTags(content: string, memoryType: string, emotionalContext: string): (tags: seq<string>)
    ensures |tags| <= 7
    ensures forall t :: t in tags ==> t != ""
    ensures tags == NonEmpty([memoryType, emotionalContext]) + KeyWords(content)
  {
    var keyWords := KeyWords(content);
    NonEmptyAppend([memoryType, emotionalContext], keyWords);
    NonEmptyKeeps(keyWords);
    NonEmpty([memoryType, emotionalContext] + keyWords)
  }

  /** `Memory(content, memory_type, emotional_context, importance)` made at clock reading `now`. */
  function NewMemory(content: string, memoryType: string, emotionalContext: string, importance: real, now: int): Memory {
    Memory(content, memoryType, emotionalContext, importance, now, GenerateTags(content, memoryType, emotionalContext))
  }

  /** The record `_semantic_search` rebuilds from an index entry; the tags are derived afresh. */
  function FromVector(v: VectorDb.VectorRecord): Memory {
    NewMemory(v.content, v.memoryType, v.emotionalContext, v.importance, v.timestamp)
  }

  function FromVectors(vs: seq<VectorDb.VectorRecord>): (r: seq<Memory>)
    ensures |r| == |vs|
    ensures forall i :: 0 <= i < |vs| ==> r[i] == FromVector(vs[i])
  {
    seq(|vs|, i requires 0 <= i < |vs| => FromVector(vs[i]))
  }

  function ImportanceLe(a: Memory, b: Memory): bool {
    a.importance <= b.importance
  }

  /**
   * What is left of the store before an append: when it holds `maxMemories` or more records it is
   * sorted by ascending importance and cut to `memories[-maxMemories + 1:]`.
   */
  function Evict(memories: seq<Memory>, maxMemories: int): seq<Memory> {
    if |memories| >= maxMemories then PySliceFrom(SortBy(memories, ImportanceLe), -maxMemories + 1)
    else memories
  }

  /**
   * Eviction only removes records, and never one more important than a record it keeps; below
   * capacity it removes nothing.
   */
  lemma EvictDropsLeastImportant(memories: seq<Memory>, maxMemories: int)
    ensures |memories| < maxMemories ==> Evict(memories, maxMemories) == memories
    ensures multiset(Evict(memories, maxMemories)) <= multiset(memories)
    ensures forall d, k ::
      (d in multiset(memories) - multiset(Evict(memories, maxMemories)) && k in Evict(memories, maxMemories))
      ==> d.importance <= k.importance
  {
    if |memories| >= maxMemories {
      var sorted := SortBy(memories, ImportanceLe);
      SortBySorted(memories, ImportanceLe);
      var b := PyBound(|sorted|, -maxMemories + 1);
      assert sorted == sorted[..b] + sorted[b..];
      assert multiset(memories) == multiset(sorted[..b]) + multiset(sorted[b..]);
      SortedSplit(sorted, b, ImportanceLe);
    }
  }

  /** With room for at least two records, the store is below capacity once eviction has run. */
  lemma EvictBelowCapacity(memories: seq<Memory>, maxMemories: int)
    requires maxMemories >= 2 && |memories| <= maxMemories
    ensures |Evict(memories, maxMemories)| < maxMemories
    ensures |Evict(memories, maxMemories)| == if |memories| == maxMemories then maxMemories - 1 else |memories|
  {
  }

  /** With `maxMemories == 1` the slice `[-0:]` keeps everything: the store never shrinks. */
  lemma CapacityOneNeverEvicts(memories: seq<Memory>)
    ensures Evict(memories, 1) == SortBy(memories, ImportanceLe)
    ensures |Evict(memories, 1)| == |memories|
  {
  }

  /** The store after adding `added` one by one to `memories`. */
  function AfterAdds(memories: seq<Memory>, added: seq<Memory>, maxMemories: int): seq<Memory>
    decreases |added|
  {
    if added == [] then memories
    else AfterAdds(Evict(memories, maxMemories) + [added[0]], added[1..], maxMemories)
  }

  /** Filling a store with room for at least two records: it grows until it holds `maxMemories`. */
  lemma {:induction false} CapacityAfterAdds(memories: seq<Memory>, added: seq<Memory>, maxMemories: int)
    requires maxMemories >= 2 && |memories| <= maxMemories
    ensures |AfterAdds(memories, added, maxMemories)| ==
      if |memories| + |added| <= maxMemories then |memories| + |added| else maxMemories
    decreases |added|
  {
    if added != [] {
      EvictBelowCapacity(memories, maxMemories);
      CapacityAfterAdds(Evict(memories, maxMemories) + [added[0]], added[1..], maxMemories);
    }
  }

  /**
   * The newest record is kept whatever its importance, so the records kept are not the
   * `maxMemories` most important ones: with room for two, adding importances 0.9, 0.8 and 0.1
   * keeps 0.9 and 0.1.
   */
  lemma NewestKeptOverMoreImportant(a: Memory, b: Memory, c: Memory)
    requires a.importance == 0.9 && b.importance == 0.8 && c.importance == 0.1
    ensures AfterAdds([], [a, b, c], 2) == [a, c]
  {
    var none: seq<Memory> := [];
    EvictPair(a, b);
    AddStep(none, a, [b, c], 2);
    AddStep([a], b, [c], 2);
    AddStep([a, b], c, [], 2);
  }

  /** One step of `AfterAdds`. */
  lemma AddStep(memories: seq<Memory>, x: Memory, rest: seq<Memory>, maxMemories: int)
    ensures AfterAdds(memories, [x] + rest, maxMemories) == AfterAdds(Evict(memories, maxMemories) + [x], rest, maxMemories)
  {
    assert ([x] + rest)[1..] == rest;
  }

  /** A full store of two keeps the more important record when it makes room. */
  lemma EvictPair(a: Memory, b: Memory)
    requires a.importance > b.importance
    ensures Evict([a, b], 2) == [a]
  {
    assert [a, b][1..] == [b] && [b][1..] == [];
    assert SortBy([b], ImportanceLe) == [b];
    assert !ImportanceLe(a, b);
    assert SortBy([a, b], ImportanceLe) == Insert(a, [b], ImportanceLe) == [b, a];
  }

  /** `content` contains the lowered query, or one of the tags does. */
  predicate Matches(m: Memory, queryLower: string) {
    Contains(Lower(m.content), queryLower) || exists t :: t in m.tags && Contains(t, queryLower)
  }

  /** The matches `_basic_search` collects, in store order. */
  function MatchesOf(memories: seq<Memory>, queryLower: string): (r: seq<Memory>)
    ensures forall x :: x in r <==> x in memories && Matches(x, queryLower)
  {
    if memories == [] then []
    else
      var m := memories[|memories| - 1];
      var init := MatchesOf(memories[..|memories| - 1], queryLower);
      if Matches(m, queryLower) then init + [m] else init
  }

  /**
   * `a` ranks at least as high as `b` under the key (content contains the query, importance,
   * timestamp) sorted in reverse: content matches first, then more important, then newer.
   */
  predicate RelevanceGe(queryLower: string, a: Memory, b: Memory) {
    var ca := Contains(Lower(a.content), queryLower);
    var cb := Contains(Lower(b.content), queryLower);
    if ca != cb then ca
    else if a.importance != b.importance then a.importance > b.importance
    else a.timestamp >= b.timestamp
  }

  function ByRelevance(queryLower: string): (Memory, Memory) -> bool {
    (a: Memory, b: Memory) => RelevanceGe(queryLower, a, b)
  }

  lemma RelevanceOrder(queryLower: string)
    ensures TotalPreorder(ByRelevance(queryLower))
  {
    var le := ByRelevance(queryLower);
    forall a, b ensures le(a, b) || le(b, a) {
      assert le(a, b) == RelevanceGe(queryLower, a, b);
    }
    forall a, b, c | le(a, b) && le(b, c) ensures le(a, c) {
      assert RelevanceGe(queryLower, a, b) && RelevanceGe(queryLower, b, c);
    }
  }

  lemma RelevanceSorted(matches: seq<Memory>, queryLower: string)
    ensures SortedBy(SortBy(matches, ByRelevance(queryLower)), ByRelevance(queryLower))
  {
    RelevanceOrder(queryLower);
    SortBySorted(matches, ByRelevance(queryLower));
  }

  function BasicResults(memories: seq<Memory>, queryLower: string, limit: int): seq<Memory> {
    PySliceTo(SortBy(MatchesOf(memories, queryLower), ByRelevance(queryLower)), limit)
  }

  /**
   * Basic search returns at most `limit` matching records, best ranked first, and every match it
   * leaves out ranks no higher than every record it returns; with at most `limit` matches it
   * returns them all.
   */
  lemma BasicResultsProperties(memories: seq<Memory>, queryLower: string, limit: int)
    ensures var r := BasicResults(memories, queryLower, limit);
      && (0 <= limit ==> |r| <= limit)
      && (forall x :: x in r ==> x in memories && Matches(x, queryLower))
      && (forall i, j :: 0 <= i < j < |r| ==> RelevanceGe(queryLower, r[i], r[j]))
      && (forall x, y :: x in r && y in multiset(MatchesOf(memories, queryLower)) - multiset(r) ==>
            RelevanceGe(queryLower, x, y))
      && (|MatchesOf(memories, queryLower)| <= limit ==>
            multiset(r) == multiset(MatchesOf(memories, queryLower)))
  {
    var matches := MatchesOf(memories, queryLower);
    var le := ByRelevance(queryLower);
    RelevanceSorted(matches, queryLower);
    SortedPrefix(matches, SortBy(matches, le), le, PyBound(|matches|, limit));
    var r := BasicResults(memories, queryLower, limit);
    assert r == SortBy(matches, le)[..PyBound(|matches|, limit)];
    forall i, j | 0 <= i < j < |r| ensures RelevanceGe(queryLower, r[i], r[j]) {
      assert le(r[i], r[j]);
    }
    forall x, y | x in r && y in multiset(matches) - multiset(r) ensures RelevanceGe(queryLower, x, y) {
      assert le(x, y);
    }
  }

  /** `[m for m in memories if emotion.lower() in m.emotional_context.lower()]` */
  function WithEmotion(memories: seq<Memory>, emotion: string): (r: seq<Memory>)
    ensures forall x :: x in r <==> x in memories && Contains(Lower(x.emotionalContext), Lower(emotion))
  {
    if memories == [] then []
    else
      var m := memories[|memories| - 1];
      var init := WithEmotion(memories[..|memories| - 1], emotion);
      if Contains(Lower(m.emotionalContext), Lower(emotion)) then init + [m] else init
  }

  function TimestampGe(a: Memory, b: Memory): bool {
    a.timestamp >= b.timestamp
  }

  /** `sorted(memories, key=timestamp, reverse=True)[:limit]` */
  function Recent(memories: seq<Memory>, limit: int): seq<Memory> {
    PySliceTo(SortBy(memories, TimestampGe), limit)
  }

  /**
   * The recent records are at most `limit` records of the store, newest first, and none left
   * out is newer than one returned.
   */
  lemma RecentProperties(memories: seq<Memory>, limit: int)
    ensures var r := Recent(memories, limit);
      && (0 <= limit ==> |r| <= limit)
      && multiset(r) <= multiset(memories)
      && (forall i, j :: 0 <= i < j < |r| ==> r[i].timestamp >= r[j].timestamp)
      && (forall x, y :: x in r && y in multiset(memories) - multiset(r) ==> x.timestamp >= y.timestamp)
  {
    var b := PyBound(|memories|, limit);
    var t := SortBy(memories, TimestampGe);
    assert Recent(memories, limit) == t[..b];
    assert t == t[..b] + t[b..];
    assert multiset(memories) == multiset(t[..b]) + multiset(t[b..]);
    NewestFirst(memories, b);
  }

  /** The first `b` records by recency are newest first and none left behind is newer. */
  lemma NewestFirst(memories: seq<Memory>, b: nat)
    requires b <= |memories|
    ensures var r := SortBy(memories, TimestampGe)[..b];
      && (forall i, j :: 0 <= i < j < |r| ==> r[i].timestamp >= r[j].timestamp)
      && (forall x, y :: x in r && y in multiset(memories) - multiset(r) ==> x.timestamp >= y.timestamp)
  {
    var r := SortBy(memories, TimestampGe)[..b];
    TimestampSorted(memories);
    SortedPrefix(memories, SortBy(memories, TimestampGe), TimestampGe, b);
    forall i, j | 0 <= i < j < |r| ensures r[i].timestamp >= r[j].timestamp {
      assert TimestampGe(r[i], r[j]);
    }
    forall x, y | x in r && y in multiset(memories) - multiset(r) ensures x.timestamp >= y.timestamp {
      assert TimestampGe(x, y);
    }
  }

  lemma TimestampSorted(memories: seq<Memory>)
    ensures SortedBy(SortBy(memories, TimestampGe), TimestampGe)
  {
    assert TotalPreorder(TimestampGe);
    SortBySorted(memories, TimestampGe);
  }

  /** The contents of the "conversation" records of `memories`, in order. */
  function ConversationContents(memories: seq<Memory>): (r: seq<string>)
    ensures |r| <= |memories|
    ensures forall c :: c in r ==> exists m :: m in memories && m.memoryType == "conversation" && m.content == c
  {
    if memories == [] then []
    else
      var init := ConversationContents(memories[..|memories| - 1]);
      var m := memories[|memories| - 1];
      assert forall x :: x in memories[..|memories| - 1] ==> x in memories;
      if m.memoryType == "conversation" then init + [m.content] else init
  }

  function Contents(vs: seq<VectorDb.VectorRecord>): (r: seq<string>)
    ensures |r| == |vs|
    ensures forall i :: 0 <= i < |vs| ==> r[i] == vs[i].content
  {
    seq(|vs|, i requires 0 <= i < |vs| => vs[i].content)
  }

  /** `get_memory_stats` of the recency store. */
  datatype MemoryStats = MemoryStats(
    total: nat,
    memoryTypes: map<string, nat>,
    vectorMemoryEnabled: bool,
    oldest: Option<int>,
    newest: Option<int>,
    vectorMemory: Option<VectorDb.VectorStats>)

  function Timestamps(memories: seq<Memory>): (r: seq<int>)
    ensures |r| == |memories|
    ensures forall i :: 0 <= i < |memories| ==> r[i] == memories[i].timestamp
  {
    seq(|memories|, i requires 0 <= i < |memories| => memories[i].timestamp)
  }

  function TypesOf(memories: seq<Memory>): (r: seq<string>)
    ensures |r| == |memories|
    ensures forall i :: 0 <= i < |memories| ==> r[i] == memories[i].memoryType
  {
    seq(|memories|, i requires 0 <= i < |memories| => memories[i].memoryType)
  }

  /**
   * `after` is `before` with one index entry appended that carries `memory`'s content, type,
   * emotional context and importance, the clock reading `now`, the index's tags and an embedding
   * of the content.
   */
  ghost predicate Mirrored(before: seq<VectorDb.VectorRecord>, after: seq<VectorDb.VectorRecord>, memory: Memory, now: int) {
    && |after| == |before| + 1
    && after[..|before|] == before
    && var r := after[|before|];
       && r.content == memory.content && r.memoryType == memory.memoryType
       && r.emotionalContext == memory.emotionalContext && r.importance == memory.importance
       && r.timestamp == now && r.tags == VectorDb.ExtractTags(memory.content, memory.emotionalContext)
       && VectorDb.IsEmbeddingOf(r.embedding, memory.content)
  }

  /** Every record rebuilt from a prefix of index hits comes from an index entry. */
  lemma HitsFromIndex(results: seq<VectorDb.VectorRecord>, index: seq<VectorDb.VectorRecord>, limit: int)
    requires forall v :: v in results ==> v in index
    ensures forall x :: x in PySliceTo(FromVectors(results), limit) ==> exists v :: v in index && x == FromVector(v)
  {
    var r := PySliceTo(FromVectors(results), limit);
    forall x | x in r ensures exists v :: v in index && x == FromVector(v) {
      var k :| 0 <= k < |r| && r[k] == x;
      assert results[k] in index;
    }
  }

  /** The last three conversation contents of `recent` are at most three, each from a record of `recent`. */
  lemma LastContentsFrom(recent: seq<Memory>)
    ensures |PySliceFrom(ConversationContents(recent), -3)| <= 3
    ensures forall c :: c in PySliceFrom(ConversationContents(recent), -3) ==>
      exists m :: m in recent && m.memoryType == "conversation" && m.content == c
  {
    var all := ConversationContents(recent);
    var parts := PySliceFrom(all, -3);
    forall c | c in parts ensures exists m :: m in recent && m.memoryType == "conversation" && m.content == c {
      assert c in all;
    }
  }

  class MemoryManager {
    var memories: seq<Memory>
    /** `memory.max_memories` from the configuration. */
    const maxMemories: int
    /** The embedding index, present when `memory.semantic_search_enabled` is set. */
    const vectorMemory: VectorDb.VectorMemory?

    constructor (maxMemories: int, vectorMemory: VectorDb.VectorMemory?)
      ensures memories == [] && this.maxMemories == maxMemories && this.vectorMemory == vectorMemory
    {
      memories := [];
      this.maxMemories := maxMemories;
      this.vectorMemory := vectorMemory;
    }

    /**
     * `add_memory`: evicts when the store is full, appends `memory`, returns "memory_" and the new
     * count, and mirrors the record into the embedding index (clock reading `now`) when one is
     * attached.
     */
    method AddMemory(memory: Memory, now: int) returns (id: string)
      modifies this, vectorMemory
      ensures memories == Evict(old(memories), maxMemories) + [memory]
      ensures id == "memory_" + NatToString(|memories|)
      ensures vectorMemory != null ==> Mirrored(old(vectorMemory.memories), vectorMemory.memories, memory, now)
    {
      if |memories| >= maxMemories {
        memories := SortBy(memories, ImportanceLe);
        memories := PySliceFrom(memories, -maxMemories + 1);
      }
      memories := memories + [memory];
      id := "memory_" + NatToString(|memories|);
      if vectorMemory != null {
        var _ := vectorMemory.AddMemory(memory.content, memory.memoryType, memory.emotionalContext,
                                        memory.importance, now);
      }
    }

    /** `get_recent_memories`: at most `limit` records, newest first. */
    function GetRecentMemories(limit: int): (r: seq<Memory>)
      reads this
      ensures 0 <= limit ==> |r| <= limit
      ensures multiset(r) <= multiset(memories)
      ensures forall i, j :: 0 <= i < j < |r| ==> r[i].timestamp >= r[j].timestamp
    {
      RecentProperties(memories, limit);
      Recent(memories, limit)
    }

    /** `_basic_search`: matching records ranked by relevance, at most `limit` of them. */
    method BasicSearch(query: string, limit: int) returns (r: seq<Memory>)
      ensures r == BasicResults(memories, Lower(query), limit)
      ensures 0 <= limit ==> |r| <= limit
      ensures forall x :: x in r ==> x in memories && Matches(x, Lower(query))
      ensures forall i, j :: 0 <= i < j < |r| ==> RelevanceGe(Lower(query), r[i], r[j])
    {
      var queryLower := Lower(query);
      var matches: seq<Memory> := [];
      for i := 0 to |memories|
        invariant matches == MatchesOf(memories[..i], queryLower)
      {
        assert memories[..i + 1][..i] == memories[..i];
        if Contains(Lower(memories[i].content), queryLower)
          || exists t :: t in memories[i].tags && Contains(t, queryLower)
        {
          matches := matches + [memories[i]];
        }
      }
      assert memories[..|memories|] == memories;
      matches := SortBy(matches, ByRelevance(queryLower));
      r := PySliceTo(matches, limit);
      BasicResultsProperties(memories, queryLower, limit);
    }

    /**
     * `search_memories`: semantic search through the index when it is asked for and an index is
     * attached (an empty index gives nothing), basic search otherwise.
     */
    method SearchMemories(query: string, limit: int, useSemantic: bool) returns (r: seq<Memory>)
      ensures !(useSemantic && vectorMemory != null) ==> r == BasicResults(memories, Lower(query), limit)
      ensures useSemantic && vectorMemory != null ==>
        && (vectorMemory.memories == [] || VectorDb.Mismatched(vectorMemory.memories) ==> r == [])
        && (vectorMemory.memories != [] && !VectorDb.Mismatched(vectorMemory.memories) ==>
              (exists qe :: VectorDb.IsEmbeddingOf(qe, query) &&
                 r == PySliceTo(FromVectors(VectorDb.SemanticRanking(vectorMemory.memories, qe, limit * 2, [],
                                                                     vectorMemory.ratio)), limit)))
      ensures 0 <= limit ==> |r| <= limit
    {
      if useSemantic && vectorMemory != null {
        r := SemanticSearch(query, limit);
      } else {
        r := BasicSearch(query, limit);
      }
    }

    /**
     * `_semantic_search`: up to `2 * limit` index hits rebuilt as records, cut to `limit`; none
     * when the index is empty or its search fails on an embedding of the wrong length.
     */
    method SemanticSearch(query: string, limit: int) returns (r: seq<Memory>)
      requires vectorMemory != null
      ensures vectorMemory.memories == [] || VectorDb.Mismatched(vectorMemory.memories) ==> r == []
      ensures vectorMemory.memories != [] && !VectorDb.Mismatched(vectorMemory.memories) ==>
        (exists qe :: VectorDb.IsEmbeddingOf(qe, query) &&
           r == PySliceTo(FromVectors(VectorDb.SemanticRanking(vectorMemory.memories, qe, limit * 2, [],
                                                               vectorMemory.ratio)), limit))
      ensures 0 <= limit ==> |r| <= limit
      ensures forall x :: x in r ==> exists v :: v in vectorMemory.memories && x == FromVector(v)
    {
      var results := vectorMemory.SemanticSearch(query, limit * 2, []);
      var converted := Convert(results);
      r := PySliceTo(converted, limit);
      if vectorMemory.memories == [] || VectorDb.Mismatched(vectorMemory.memories) {
        assert results == [];
        assert converted == [];
      } else {
        ghost var qe :| VectorDb.IsEmbeddingOf(qe, query) &&
          results == VectorDb.SemanticRanking(vectorMemory.memories, qe, limit * 2, [], vectorMemory.ratio);
        assert r == PySliceTo(FromVectors(results), limit);
      }
      HitsFromIndex(results, vectorMemory.memories, limit);
    }

    /** The loop of `_semantic_search` that rebuilds each index hit as a record. */
    static method Convert(results: seq<VectorDb.VectorRecord>) returns (converted: seq<Memory>)
      ensures converted == FromVectors(results)
    {
      converted := [];
      for i := 0 to |results|
        invariant converted == FromVectors(results[..i])
      {
        converted := converted + [FromVector(results[i])];
      }
      assert results[..|results|] == results;
    }

    /** `search_by_emotion`: matching records in store order, at most `limit` of them. */
    method SearchByEmotion(emotion: string, limit: int) returns (r: seq<Memory>)
      ensures r == PySliceTo(WithEmotion(memories, emotion), limit)
      ensures 0 <= limit ==> |r| <= limit
      ensures forall x :: x in r ==> x in memories && Contains(Lower(x.emotionalContext), Lower(emotion))
    {
      var found: seq<Memory> := [];
      for i := 0 to |memories|
        invariant found == WithEmotion(memories[..i], emotion)
      {
        assert memories[..i + 1][..i] == memories[..i];
        if Contains(Lower(memories[i].emotionalContext), Lower(emotion)) {
          found := found + [memories[i]];
        }
      }
      assert memories[..|memories|] == memories;
      r := PySliceTo(found, limit);
    }

    /**
     * `get_conversation_context`: of the `limit` newest records, the contents of the conversation
     * records, newest first, of which the last three are joined by newlines.
     */
    method GetConversationContext(limit: int) returns (r: string, parts: seq<string>)
      ensures parts == PySliceFrom(ConversationContents(Recent(memories, limit)), -3)
      ensures r == Join("\n", parts)
      ensures |parts| <= 3
      ensures forall c :: c in parts ==>
        exists m :: m in Recent(memories, limit) && m.memoryType == "conversation" && m.content == c
    {
      var recent := GetRecentMemories(limit);
      var contextParts := CollectContents(recent);
      parts := PySliceFrom(contextParts, -3);
      r := Join("\n", parts);
      LastContentsFrom(recent);
    }

    /** The loop of `get_conversation_context` that collects the conversation contents. */
    static method CollectContents(recent: seq<Memory>) returns (contextParts: seq<string>)
      ensures contextParts == ConversationContents(recent)
    {
      contextParts := [];
      for i := 0 to |recent|
        invariant contextParts == ConversationContents(recent[..i])
      {
        assert recent[..i + 1][..i] == recent[..i];
        if recent[i].memoryType == "conversation" {
          contextParts := contextParts + [recent[i].content];
        }
      }
      assert recent[..|recent|] == recent;
    }

    /**
     * `get_semantic_context`: without an index, the conversation context; with one, the contents
     * of the index's semantic hits joined by newlines (none when its search fails).
     */
    method GetSemanticContext(query: string, limit: int) returns (r: string)
      ensures vectorMemory == null ==>
        r == Join("\n", PySliceFrom(ConversationContents(Recent(memories, limit)), -3))
      ensures vectorMemory != null && (vectorMemory.memories == [] || VectorDb.Mismatched(vectorMemory.memories)) ==> r == ""
      ensures vectorMemory != null && vectorMemory.memories != [] && !VectorDb.Mismatched(vectorMemory.memories) ==>
        (exists qe :: VectorDb.IsEmbeddingOf(qe, query) &&
           r == Join("\n", Contents(VectorDb.SemanticRanking(vectorMemory.memories, qe, limit, [], vectorMemory.ratio))))
    {
      if vectorMemory == null {
        var parts;
        r, parts := GetConversationContext(limit);
        return;
      }
      var hits := vectorMemory.SemanticSearch(query, limit, []);
      var contextParts: seq<string> := [];
      for i := 0 to |hits|
        invariant contextParts == Contents(hits[..i])
      {
        contextParts := contextParts + [hits[i].content];
      }
      assert hits[..|hits|] == hits;
      r := Join("\n", contextParts);
    }

    /**
     * `get_memory_stats`: the count, a per-type count for every type present, whether an index is
     * attached, the oldest and newest timestamps of a non-empty store and the index's own stats.
     */
    method GetMemoryStats() returns (st: MemoryStats)
      ensures st.total == |memories|
      ensures forall t :: t in st.memoryTypes <==> exists m :: m in memories && m.memoryType == t
      ensures forall t :: t in st.memoryTypes ==> st.memoryTypes[t] == multiset(TypesOf(memories))[t] > 0
      ensures st.vectorMemoryEnabled <==> vectorMemory != null
      ensures st.vectorMemory.Some? <==> vectorMemory != null
      ensures vectorMemory != null ==> VectorDb.IsStatsOf(st.vectorMemory.value, vectorMemory.memories)
      ensures memories == [] <==> st.oldest.None?
      ensures memories == [] <==> st.newest.None?
      ensures st.oldest.Some? ==> forall m :: m in memories ==> st.oldest.value <= m.timestamp
      ensures st.newest.Some? ==> forall m :: m in memories ==> st.newest.value >= m.timestamp
      ensures st.oldest.Some? ==> exists m :: m in memories && m.timestamp == st.oldest.value
      ensures st.newest.Some? ==> exists m :: m in memories && m.timestamp == st.newest.value
    {
      var types := TypesOf(memories);
      var typeCounts := map t | t in types :: multiset(types)[t];
      forall t ensures t in types <==> exists m :: m in memories && m.memoryType == t {
        if t in types {
          var k :| 0 <= k < |types| && types[k] == t;
          assert memories[k] in memories;
        }
      }
      var timestamps := Timestamps(memories);
      assert forall m :: m in memories ==> m.timestamp in timestamps;
      var oldest: Option<int> := None;
      var newest: Option<int> := None;
      if memories != [] {
        oldest := Some(Min(timestamps));
        newest := Some(Max(timestamps));
      }
      var vectorStats: Option<VectorDb.VectorStats> := None;
      if vectorMemory != null {
        var s := vectorMemory.GetMemoryStats();
        vectorStats := Some(s);
      }
      st := MemoryStats(|memories|, typeCounts, vectorMemory != null, oldest, newest, vectorStats);
    }
  }
}
