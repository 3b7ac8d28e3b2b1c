/**
 * The embedding index (memory/vector_db.py): an append-only list of records, each carrying a
 * 100-dimensional bag-of-words vector, searched by cosine similarity, by emotion label, by tag,
 * by recency and by importance.
 */
module VectorDb {
  import opened Text
  import opened Collections

  const Dimensions: nat := 100

  datatype VectorRecord = VectorRecord(
    id: string,
    content: string,
    memoryType: string,
    emotionalContext: string,
    importance: real,
    embedding: seq<real>,
    timestamp: int,
    tags: seq<string>)

  /** What reading the index file at start-up produced. */
  datatype LoadOutcome = Missing | Loaded(records: seq<VectorRecord>) | Unreadable

  /** `words.count(w) / len(words)` */
  function Frequency(words: seq<string>, w: string): real
    requires w in words
  {
    (multiset(words)[w] as real) / (|words| as real)
  }

  ghost predicate Distinct(order: seq<string>) {
    forall i, j :: 0 <= i < j < |order| ==> order[i] != order[j]
  }

  /** `order` lists every distinct word of `words` once: one possible `list(set(words))`. */
  ghost predicate IsEnumeration(order: seq<string>, words: seq<string>) {
    Distinct(order) && forall w :: w in order <==> w in words
  }

  /** The vector `_generate_embedding` fills when the set of words is iterated in `order`. */
  ghost function EmbeddingFor(words: seq<string>, order: seq<string>): seq<real>
    requires forall w :: w in order ==> w in words
  {
    seq(Dimensions, i requires 0 <= i < Dimensions =>
      if i < |order| then Frequency(words, order[i]) else 0.0)
  }

  /** `e` is what `_generate_embedding(text)` returns for some iteration order of the word set. */
  ghost predicate IsEmbeddingOf(e: seq<real>, text: string) {
    var words := Words(Lower(text));
    exists order :: IsEnumeration(order, words) && e == EmbeddingFor(words, order)
  }

  lemma {:induction false} DistinctCard(order: seq<string>)
    requires Distinct(order)
    ensures |set w | w in order| == |order|
  {
    if order != [] {
      var last := order[|order| - 1];
      var init := order[..|order| - 1];
      DistinctCard(init);
      assert (set w | w in order) == (set w | w in init) + {last};
      assert last !in (set w | w in init);
    }
  }

  /** An enumeration of the distinct words is as long as the set of distinct words. */
  lemma EnumerationLength(order: seq<string>, words: seq<string>)
    requires IsEnumeration(order, words)
    ensures |order| == |set w | w in words|
  {
    DistinctCard(order);
    assert (set w | w in order) == (set w | w in words);
  }

  /** A blank text (no words) gives the zero vector. */
  lemma BlankEmbedding(text: string, e: seq<real>)
    requires AllSpace(text) && IsEmbeddingOf(e, text)
    ensures |e| == Dimensions
    ensures forall i :: 0 <= i < Dimensions ==> e[i] == 0.0
  {
    var words := Words(Lower(text));
    var order :| IsEnumeration(order, words) && e == EmbeddingFor(words, order);
    forall i | 0 <= i < |Lower(text)| ensures IsSpace(Lower(text)[i]) {
      assert IsSpace(text[i]);
    }
    AllSpaceNoWords(Lower(text));
    EnumerationLength(order, words);
    assert (set w | w in words) == {};
  }

  /**
   * Entry `i` of an embedding is 0 from the number of distinct words on, and every non-zero
   * entry is the relative frequency of one of the words.
   */
  lemma EmbeddingEntries(text: string, e: seq<real>)
    requires IsEmbeddingOf(e, text)
    ensures |e| == Dimensions
    ensures forall i :: 0 <= i < Dimensions && i >= |set w | w in Words(Lower(text))| ==> e[i] == 0.0
    ensures forall i :: 0 <= i < Dimensions && e[i] != 0.0 ==>
      (exists w :: w in Words(Lower(text)) && e[i] == Frequency(Words(Lower(text)), w))
  {
    var words := Words(Lower(text));
    var order :| IsEnumeration(order, words) && e == EmbeddingFor(words, order);
    EnumerationLength(order, words);
    forall i | 0 <= i < Dimensions && e[i] != 0.0
      ensures exists w :: w in words && e[i] == Frequency(words, w)
    {
      assert order[i] in words;
    }
  }

  /** Two different filled entries are the frequencies of two different words. */
  lemma EmbeddingEntriesDistinct(text: string, e: seq<real>, i: nat, j: nat)
    requires IsEmbeddingOf(e, text)
    requires i < j < Dimensions && j < |set w | w in Words(Lower(text))|
    ensures exists w1, w2 ::
      w1 != w2 && w1 in Words(Lower(text)) && w2 in Words(Lower(text))
      && e[i] == Frequency(Words(Lower(text)), w1) && e[j] == Frequency(Words(Lower(text)), w2)
  {
    var words := Words(Lower(text));
    var order :| IsEnumeration(order, words) && e == EmbeddingFor(words, order);
    EnumerationLength(order, words);
    assert order[i] in words && order[j] in words && order[i] != order[j];
  }

  /** `_generate_embedding`: relative word frequencies in the order the word set is iterated. */
  method GenerateEmbedding(text: string) returns (e: seq<real>)
    ensures IsEmbeddingOf(e, text)
  {
    var words := Words(Lower(text));
    var distinct := set w | w in words;
    // list(set(words)): the iteration order of a set is not specified
    var rest := distinct;
    var order: seq<string> := [];
    while rest != {}
      invariant rest <= distinct
      invariant forall w :: w in order ==> w in distinct && w !in rest
      invariant forall w :: w in distinct ==> w in order || w in rest
      invariant Distinct(order)
      decreases rest
    {
      var w :| w in rest;
      order := order + [w];
      rest := rest - {w};
    }
    assert forall w :: w in order ==> w in words;
    var a := new real[Dimensions](_ => 0.0);
    var n := if |order| < Dimensions then |order| else Dimensions;
    for i := 0 to n
      invariant forall k :: 0 <= k < Dimensions ==>
        a[k] == if k < i then Frequency(words, order[k]) else 0.0
    {
      assert order[i] in distinct;
      a[i] := Frequency(words, order[i]);
    }
    e := a[..];
    assert e == EmbeddingFor(words, order);
  }

  function SquaredNorm(v: seq<real>): real {
    if v == [] then 0.0 else v[0] * v[0] + SquaredNorm(v[1..])
  }

  /** The zero vector has norm 0. */
  lemma {:induction false} ZeroVectorNorm(v: seq<real>)
    requires forall i :: 0 <= i < |v| ==> v[i] == 0.0
    ensures SquaredNorm(v) == 0.0
  {
    if v != [] {
      assert forall i :: 0 <= i < |v[1..]| ==> v[1..][i] == v[i + 1];
      ZeroVectorNorm(v[1..]);
      assert v[0] * v[0] == 0.0 * 0.0;
    }
  }

  /**
   * `_cosine_similarity`: 0 when either vector has norm 0; otherwise `ratio(v1, v2)`, which
   * stands for `dot(v1, v2) / (norm(v1) * norm(v2))`.
   */
  function CosineSimilarity(v1: seq<real>, v2: seq<real>, ratio: (seq<real>, seq<real>) -> real): real {
    if SquaredNorm(v1) == 0.0 || SquaredNorm(v2) == 0.0 then 0.0 else ratio(v1, v2)
  }

  /** The similarity of the zero vector (the embedding of a blank text) to anything is 0. */
  lemma ZeroVectorSimilarity(v1: seq<real>, v2: seq<real>, ratio: (seq<real>, seq<real>) -> real)
    requires forall i :: 0 <= i < |v1| ==> v1[i] == 0.0
    ensures CosineSimilarity(v1, v2, ratio) == 0.0 && CosineSimilarity(v2, v1, ratio) == 0.0
  {
    ZeroVectorNorm(v1);
  }

  /**
   * Some stored embedding differs in length from a query's `Dimensions` entries, so that
   * `np.dot` in `_cosine_similarity` raises ValueError on it.
   */
  ghost predicate Mismatched(mems: seq<VectorRecord>) {
    exists m :: m in mems && |m.embedding| != Dimensions
  }

  /** `_extract_tags`: an `emotion:` tag for a non-empty context, then up to five keywords. */
  function ExtractTags(content: string, emotionalContext: string): (tags: seq<string>)
    ensures |tags| <= 6
    ensures emotionalContext != "" ==>
      |tags| >= 1 && tags[0] == "emotion:" + emotionalContext && tags[1..] == KeyWords(content)
    ensures emotionalContext == "" ==> tags == KeyWords(content)
  {
    (if emotionalContext != "" then ["emotion:" + emotionalContext] else []) + KeyWords(content)
  }

  /** The (similarity, record) pairs `semantic_search` collects, in store order. */
  function Scored(mems: seq<VectorRecord>, qe: seq<real>, memoryTypes: seq<string>,
                  ratio: (seq<real>, seq<real>) -> real): (r: seq<(real, VectorRecord)>)
    ensures |r| <= |mems|
    ensures forall p :: p in r ==>
      (p.1 in mems && p.0 == CosineSimilarity(qe, p.1.embedding, ratio)
       && (memoryTypes != [] ==> p.1.memoryType in memoryTypes))
  {
    if mems == [] then []
    else
      var m := mems[|mems| - 1];
      var init := Scored(mems[..|mems| - 1], qe, memoryTypes, ratio);
      if memoryTypes != [] && m.memoryType !in memoryTypes then init
      else init + [(CosineSimilarity(qe, m.embedding, ratio), m)]
  }

  function SimilarityGe(a: (real, VectorRecord), b: (real, VectorRecord)): bool {
    a.0 >= b.0
  }

  function Records(ps: seq<(real, VectorRecord)>): (r: seq<VectorRecord>)
    ensures |r| == |ps|
    ensures forall i :: 0 <= i < |ps| ==> r[i] == ps[i].1
  {
    seq(|ps|, i requires 0 <= i < |ps| => ps[i].1)
  }

  /** The result of `semantic_search` on a non-empty store, given the query's embedding. */
  function SemanticRanking(mems: seq<VectorRecord>, qe: seq<real>, limit: int, memoryTypes: seq<string>,
                           ratio: (seq<real>, seq<real>) -> real): seq<VectorRecord>
  {
    Records(PySliceTo(SortBy(Scored(mems, qe, memoryTypes, ratio), SimilarityGe), limit))
  }

  /**
   * Semantic search returns at most `limit` records of the store, every one of an allowed type,
   * in non-increasing similarity to the query.
   */
  lemma SemanticRankingProperties(mems: seq<VectorRecord>, qe: seq<real>, limit: int,
                                  memoryTypes: seq<string>, ratio: (seq<real>, seq<real>) -> real)
    ensures var r := SemanticRanking(mems, qe, limit, memoryTypes, ratio);
      && (0 <= limit ==> |r| <= limit)
      && (forall x :: x in r ==> x in mems && (memoryTypes != [] ==> x.memoryType in memoryTypes))
      && (forall i, j :: 0 <= i < j < |r| ==>
            CosineSimilarity(qe, r[i].embedding, ratio) >= CosineSimilarity(qe, r[j].embedding, ratio))
  {
    var scored := Scored(mems, qe, memoryTypes, ratio);
    var sorted := SortBy(scored, SimilarityGe);
    SortBySorted(scored, SimilarityGe);
    var cut := PySliceTo(sorted, limit);
    forall x | x in cut ensures x in scored {
      assert x in multiset(sorted);
    }
  }

  /** `[m for m in mems if emotion.lower() in m['emotional_context'].lower()]` */
  function WithEmotion(mems: seq<VectorRecord>, emotion: string): (r: seq<VectorRecord>)
    ensures forall x :: x in r <==> x in mems && Contains(Lower(x.emotionalContext), Lower(emotion))
  {
    if mems == [] then []
    else
      var m := mems[|mems| - 1];
      var init := WithEmotion(mems[..|mems| - 1], emotion);
      if Contains(Lower(m.emotionalContext), Lower(emotion)) then init + [m] else init
  }

  /** Some lowered search tag is a substring of some lowered tag of the record. */
  predicate TagsMatch(memoryTags: seq<string>, searchTags: seq<string>) {
    exists s, t :: s in searchTags && t in memoryTags && Contains(Lower(t), Lower(s))
  }

  function WithTags(mems: seq<VectorRecord>, searchTags: seq<string>): (r: seq<VectorRecord>)
    ensures forall x :: x in r <==> x in mems && TagsMatch(x.tags, searchTags)
  {
    if mems == [] then []
    else
      var m := mems[|mems| - 1];
      var init := WithTags(mems[..|mems| - 1], searchTags);
      if TagsMatch(m.tags, searchTags) then init + [m] else init
  }

  function TimestampGe(a: VectorRecord, b: VectorRecord): bool {
    a.timestamp >= b.timestamp
  }

  function ImportanceGe(a: VectorRecord, b: VectorRecord): bool {
    a.importance >= b.importance
  }

  ghost function TypesOf(mems: seq<VectorRecord>): (r: seq<string>)
    ensures |r| == |mems|
  {
    seq(|mems|, i requires 0 <= i < |mems| => mems[i].memoryType)
  }

  /** `memory['emotional_context'] or 'neutral'` */
  function EmotionKey(m: VectorRecord): string {
    if m.emotionalContext == "" then "neutral" else m.emotionalContext
  }

  ghost function EmotionsOf(mems: seq<VectorRecord>): (r: seq<string>)
    ensures |r| == |mems|
  {
    seq(|mems|, i requires 0 <= i < |mems| => EmotionKey(mems[i]))
  }

  function SumImportance(mems: seq<VectorRecord>): real {
    if mems == [] then 0.0 else SumImportance(mems[..|mems| - 1]) + mems[|mems| - 1].importance
  }

  function Timestamps(mems: seq<VectorRecord>): (r: seq<int>)
    ensures |r| == |mems|
    ensures forall i :: 0 <= i < |mems| ==> r[i] == mems[i].timestamp
  {
    seq(|mems|, i requires 0 <= i < |mems| => mems[i].timestamp)
  }

  /** Both tallies count every record once, and no record is counted under an empty emotion. */
  lemma TallySums(mems: seq<VectorRecord>)
    ensures SumCounts(Tally(TypesOf(mems))) == |mems|
    ensures SumCounts(Tally(EmotionsOf(mems))) == |mems|
    ensures Get(Tally(EmotionsOf(mems)), "").None?
  {
    TallySum(TypesOf(mems));
    TallySum(EmotionsOf(mems));
    TallyCount(EmotionsOf(mems), "");
  }

  /**
   * `st` is the report `get_memory_stats` gives for `mems`: nothing but the count of an empty
   * store; otherwise the total, the tallies of types and of emotions (an empty context counted
   * as "neutral"), the mean importance, and the least and greatest timestamps, each that of a
   * stored record.
   */
  ghost predicate IsStatsOf(st: VectorStats, mems: seq<VectorRecord>) {
    && (mems == [] <==> st.NoMemories?)
    && (st.Stats? ==>
      && st.total == |mems|
      && st.memoryTypes == Tally(TypesOf(mems))
      && st.emotions == Tally(EmotionsOf(mems))
      && st.averageImportance == SumImportance(mems) / (|mems| as real)
      && (forall m :: m in mems ==> st.oldest <= m.timestamp <= st.newest)
      && (exists m :: m in mems && m.timestamp == st.oldest)
      && (exists m :: m in mems && m.timestamp == st.newest))
  }

  /** The report is determined by the records: two reports on the same store agree. */
  lemma StatsDetermined(a: VectorStats, b: VectorStats, mems: seq<VectorRecord>)
    requires IsStatsOf(a, mems) && IsStatsOf(b, mems)
    ensures a == b
  {
    if a.Stats? {
      var ma :| ma in mems && ma.timestamp == a.oldest;
      var mb :| mb in mems && mb.timestamp == b.oldest;
      assert a.oldest <= mb.timestamp && b.oldest <= ma.timestamp;
      var na :| na in mems && na.timestamp == a.newest;
      var nb :| nb in mems && nb.timestamp == b.newest;
      assert a.newest >= nb.timestamp && b.newest >= na.timestamp;
    }
  }

  /** `get_memory_stats`; `np.mean` is the exact mean here. */
  datatype VectorStats =
    | NoMemories
    | Stats(total: nat, memoryTypes: seq<(string, nat)>, emotions: seq<(string, nat)>,
            averageImportance: real, oldest: int, newest: int)

  class VectorMemory {
    var memories: seq<VectorRecord>
    /** `dot(v1, v2) / (norm(v1) * norm(v2))`, the square-root part of the cosine. */
    const ratio: (seq<real>, seq<real>) -> real

    /** A new index: `load_memories` runs once; an unreadable file leaves the index empty. */
    constructor (ratio: (seq<real>, seq<real>) -> real, stored: LoadOutcome)
      ensures this.ratio == ratio
      ensures memories == if stored.Loaded? then stored.records else []
    {
      this.ratio := ratio;
      memories := [];
      new;
      LoadMemories(stored);
    }

    /** `load_memories`: a missing file keeps the list, an unreadable one empties it. */
    method LoadMemories(stored: LoadOutcome)
      modifies this
      ensures stored.Missing? ==> memories == old(memories)
      ensures stored.Loaded? ==> memories == stored.records
      ensures stored.Unreadable? ==> memories == []
    {
      match stored
      case Missing =>
      case Loaded(records) => memories := records;
      case Unreadable => memories := [];
    }

    /**
     * `add_memory`: appends one record whose id is built from the previous count and the clock
     * reading `now`, and returns that id.
     */
    method AddMemory(content: string, memoryType: string, emotionalContext: string, importance: real, now: int)
      returns (id: string)
      modifies this
      ensures id == "vec_mem_" + NatToString(|old(memories)|) + "_" + IntToString(now)
      ensures |memories| == |old(memories)| + 1 && memories[..|old(memories)|] == old(memories)
      ensures var r := memories[|memories| - 1];
        && r.id == id && r.content == content && r.memoryType == memoryType
        && r.emotionalContext == emotionalContext && r.importance == importance
        && r.timestamp == now && r.tags == ExtractTags(content, emotionalContext)
        && IsEmbeddingOf(r.embedding, content)
    {
      id := "vec_mem_" + NatToString(|memories|) + "_" + IntToString(now);
      var embedding := GenerateEmbedding(content);
      var record := VectorRecord(id, content, memoryType, emotionalContext, importance,
                                 embedding, now, ExtractTags(content, emotionalContext));
      memories := memories + [record];
    }

    /**
     * `semantic_search`: nothing on an empty store; nothing when a stored embedding is not as
     * long as the query's, where `np.dot` raises ValueError (whatever the record's type, since
     * the similarity is computed before the type filter) and the error is caught; otherwise the
     * stored records of an allowed type ranked by similarity to the query's embedding, at most
     * `limit` of them.
     */
    method SemanticSearch(query: string, limit: int, memoryTypes: seq<string>)
      returns (r: seq<VectorRecord>)
      ensures memories == [] ==> r == []
      ensures Mismatched(memories) ==> r == []
      ensures memories != [] && !Mismatched(memories) ==>
        (exists qe :: IsEmbeddingOf(qe, query) && r == SemanticRanking(memories, qe, limit, memoryTypes, ratio))
      ensures 0 <= limit ==> |r| <= limit
      ensures forall x :: x in r ==> x in memories && (memoryTypes != [] ==> x.memoryType in memoryTypes)
    {
      if memories == [] {
        return [];
      }
      var qe := GenerateEmbedding(query);
      var similarities: seq<(real, VectorRecord)> := [];
      for i := 0 to |memories|
        invariant similarities == Scored(memories[..i], qe, memoryTypes, ratio)
        invariant forall j :: 0 <= j < i ==> |memories[j].embedding| == Dimensions
      {
        assert memories[..i + 1][..i] == memories[..i];
        if |memories[i].embedding| != Dimensions {
          assert memories[i] in memories;
          return [];
        }
        var similarity := CosineSimilarity(qe, memories[i].embedding, ratio);
        if !(memoryTypes != [] && memories[i].memoryType !in memoryTypes) {
          similarities := similarities + [(similarity, memories[i])];
        }
      }
      assert memories[..|memories|] == memories;
      similarities := SortBy(similarities, SimilarityGe);
      r := Records(PySliceTo(similarities, limit));
      SemanticRankingProperties(memories, qe, limit, memoryTypes, ratio);
    }

    /** `search_by_emotion`: matching records in store order, at most `limit` of them. */
    method SearchByEmotion(emotion: string, limit: int) returns (r: seq<VectorRecord>)
      ensures r == PySliceTo(WithEmotion(memories, emotion), limit)
      ensures 0 <= limit ==> |r| <= limit
      ensures forall x :: x in r ==> x in memories && Contains(Lower(x.emotionalContext), Lower(emotion))
    {
      var found: seq<VectorRecord> := [];
      for i := 0 to |memories|
        invariant found == WithEmotion(memories[..i], emotion)
      {
        assert memories[..i + 1][..i] == memories[..i];
        if Contains(Lower(memories[i].emotionalContext), Lower(emotion)) {
          found := found + [memories[i]];
        }
      }
      assert memories[..|memories|] == memories;
      r := PySliceTo(found, limit);
    }

    /** `search_by_tags`: records with a tag containing one of the search tags, store order. */
    method SearchByTags(searchTags: seq<string>, limit: int) returns (r: seq<VectorRecord>)
      ensures r == PySliceTo(WithTags(memories, searchTags), limit)
      ensures 0 <= limit ==> |r| <= limit
      ensures forall x :: x in r ==> x in memories && TagsMatch(x.tags, searchTags)
    {
      var found: seq<VectorRecord> := [];
      for i := 0 to |memories|
        invariant found == WithTags(memories[..i], searchTags)
      {
        assert memories[..i + 1][..i] == memories[..i];
        var hit := false;
        for a := 0 to |searchTags|
          invariant hit <==>
            (exists s, t :: s in searchTags[..a] && t in memories[i].tags && Contains(Lower(t), Lower(s)))
        {
          for b := 0 to |memories[i].tags|
            invariant hit <==>
              (exists s, t :: ((s in searchTags[..a] && t in memories[i].tags)
                || (s == searchTags[a] && t in memories[i].tags[..b])) && Contains(Lower(t), Lower(s)))
          {
            if Contains(Lower(memories[i].tags[b]), Lower(searchTags[a])) {
              hit := true;
            }
            assert memories[i].tags[..b + 1] == memories[i].tags[..b] + [memories[i].tags[b]];
          }
          assert memories[i].tags[..|memories[i].tags|] == memories[i].tags;
          assert searchTags[..a + 1] == searchTags[..a] + [searchTags[a]];
        }
        assert searchTags[..|searchTags|] == searchTags;
        if hit {
          found := found + [memories[i]];
        }
      }
      assert memories[..|memories|] == memories;
      r := PySliceTo(found, limit);
    }

    /** `get_recent_memories`: at most `limit` records, newest first. */
    function GetRecentMemories(limit: int): (r: seq<VectorRecord>)
      reads this
      ensures 0 <= limit ==> |r| <= limit
      ensures multiset(r) <= multiset(memories)
      ensures forall i, j :: 0 <= i < j < |r| ==> r[i].timestamp >= r[j].timestamp
    {
      var sorted := SortBy(memories, TimestampGe);
      SortBySorted(memories, TimestampGe);
      assert sorted == PySliceTo(sorted, limit) + sorted[PyBound(|sorted|, limit)..];
      PySliceTo(sorted, limit)
    }

    /** `get_important_memories`: at most `limit` records, most important first. */
    function GetImportantMemories(limit: int): (r: seq<VectorRecord>)
      reads this
      ensures 0 <= limit ==> |r| <= limit
      ensures multiset(r) <= multiset(memories)
      ensures forall i, j :: 0 <= i < j < |r| ==> r[i].importance >= r[j].importance
    {
      var sorted := SortBy(memories, ImportanceGe);
      SortBySorted(memories, ImportanceGe);
      assert sorted == PySliceTo(sorted, limit) + sorted[PyBound(|sorted|, limit)..];
      PySliceTo(sorted, limit)
    }

    /** One step of the stats loop: the type counts after one more record. */
    static lemma TypesStep(memories: seq<VectorRecord>, i: nat)
      requires i < |memories|
      ensures Tally(TypesOf(memories[..i + 1])) ==
        Put(Tally(TypesOf(memories[..i])), memories[i].memoryType,
            GetOr(Tally(TypesOf(memories[..i])), memories[i].memoryType, 0) + 1)
    {
      assert TypesOf(memories[..i + 1]) == TypesOf(memories[..i]) + [memories[i].memoryType];
      TallySnoc(TypesOf(memories[..i]), memories[i].memoryType);
    }

    /** One step of the stats loop: the emotion counts after one more record. */
    static lemma EmotionsStep(memories: seq<VectorRecord>, i: nat)
      requires i < |memories|
      ensures Tally(EmotionsOf(memories[..i + 1])) ==
        Put(Tally(EmotionsOf(memories[..i])), EmotionKey(memories[i]),
            GetOr(Tally(EmotionsOf(memories[..i])), EmotionKey(memories[i]), 0) + 1)
    {
      assert EmotionsOf(memories[..i + 1]) == EmotionsOf(memories[..i]) + [EmotionKey(memories[i])];
      TallySnoc(EmotionsOf(memories[..i]), EmotionKey(memories[i]));
    }

    /** The counting loop of `get_memory_stats`. */
    static method CountTypesAndEmotions(memories: seq<VectorRecord>) returns (memoryTypes: seq<(string, nat)>, emotions: seq<(string, nat)>)
      ensures memoryTypes == Tally(TypesOf(memories))
      ensures emotions == Tally(EmotionsOf(memories))
    {
      memoryTypes := [];
      emotions := [];
      for i := 0 to |memories|
        invariant memoryTypes == Tally(TypesOf(memories[..i]))
        invariant emotions == Tally(EmotionsOf(memories[..i]))
      {
        TypesStep(memories, i);
        EmotionsStep(memories, i);
        var memType := memories[i].memoryType;
        memoryTypes := Put(memoryTypes, memType, GetOr(memoryTypes, memType, 0) + 1);
        var emotion := EmotionKey(memories[i]);
        emotions := Put(emotions, emotion, GetOr(emotions, emotion, 0) + 1);
      }
      assert memories[..|memories|] == memories;
    }

    /**
     * `get_memory_stats`: on a non-empty store, per-type and per-emotion counts (an empty
     * context counted as "neutral") that each add up to the total, the mean importance and
     * the oldest and newest timestamps.
     */
    method GetMemoryStats() returns (st: VectorStats)
      ensures IsStatsOf(st, memories)
      ensures st.Stats? ==>
        && SumCounts(st.memoryTypes) == st.total
        && SumCounts(st.emotions) == st.total
        && Get(st.emotions, "").None?
    {
      if memories == [] {
        return NoMemories;
      }
      var memoryTypes, emotions := CountTypesAndEmotions(memories);
      TallySums(memories);
      var timestamps := Timestamps(memories);
      assert forall m :: m in memories ==> m.timestamp in timestamps;
      st := Stats(|memories|, memoryTypes, emotions, SumImportance(memories) / (|memories| as real),
                  Min(timestamps), Max(timestamps));
    }
  }
}
