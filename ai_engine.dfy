/**
 * The rules of the engine itself (ai_engine.py): keyword-driven emotional state with decay, the
 * bounded emotional and conversation histories, fact learning, curiosity adaptation, the context
 * handed to the language model and the strings that describe the engine's state.
 */
module Engine {
  import opened Text
  import opened Collections
  import opened EmotionTypes
  import opened Settings
  import Config
  import Memories
  import BasicMemory
  import VectorDb

  /** A `{'role': ..., 'content': ...}` chat message. */
  datatype ChatMessage = ChatMessage(role: string, content: string)

  /** An entry of `learned_facts`; `timestamp` is the clock reading taken when it was learned. */
  datatype LearnedFact = LearnedFact(fact: string, timestamp: int, confidence: real)

  /** `integration_states` */
  datatype Integrations = Integrations(discord: bool, vtubeStudio: bool, tts: bool)

  /** `min(x, 1.0)` */
  function Cap(x: real): real {
    if x <= 1.0 then x else 1.0
  }

  /** The position of an emotion in `EmotionType`, the order the enum is iterated in. */
  function Ord(e: Emotion): nat {
    match e
    case Joy => 0
    case Sadness => 1
    case Anger => 2
    case Fear => 3
    case Surprise => 4
    case Disgust => 5
    case Curiosity => 6
    case Excitement => 7
    case Contentment => 8
    case Neutral => 9
  }

  predicate InEnumOrder(es: seq<Emotion>) {
    forall i, j :: 0 <= i < j < |es| ==> Ord(es[i]) < Ord(es[j])
  }

  predicate KeysInEnumOrder(d: seq<(Emotion, real)>) {
    forall i, j :: 0 <= i < j < |d| ==> Ord(d[i].0) < Ord(d[j].0)
  }

  lemma AllEmotionsInOrder()
    ensures InEnumOrder(AllEmotions)
  {
    assert forall i :: 0 <= i < |AllEmotions| ==> Ord(AllEmotions[i]) == i;
  }

  // ---------------------------------------------------------------- trigger scoring

  /** How many of `words` occur in `text`. */
  function Found(words: seq<string>, text: string): (n: nat)
    ensures n <= |words|
  {
    if words == [] then 0
    else Found(words[..|words| - 1], text) + (if Contains(text, words[|words| - 1]) then 1 else 0)
  }

  /** The count is 0 exactly when none of the words occurs. */
  lemma {:induction false} FoundNone(words: seq<string>, text: string)
    ensures Found(words, text) == 0 <==> forall i :: 0 <= i < |words| ==> !Contains(text, words[i])
  {
    if words != [] {
      FoundNone(words[..|words| - 1], text);
    }
  }

  /** The dict entry `e: v` when `e` scored (`n > 0`), nothing when it did not. */
  function Entry(e: Emotion, n: nat, v: real): seq<(Emotion, real)> {
    if n > 0 then [(e, v)] else []
  }

  /** The number of each emotion's trigger words found in the lowered input `text`. */
  function TriggerCount(text: string): Emotion -> nat {
    WordCount(Triggers, text)
  }

  /** How many of the words `table(e)` of each emotion `e` occur in `text`. */
  function WordCount(table: Emotion -> seq<string>, text: string): Emotion -> nat {
    e => Found(table(e), text)
  }

  /**
   * `emotional_shifts` after the trigger loop of `_update_emotional_state` has run over the
   * emotions `es`, with `count(e)` trigger words of `e` found: 0.3 for every one of them.
   */
  function ShiftsOver(es: seq<Emotion>, count: Emotion -> nat): seq<(Emotion, real)> {
    if es == [] then []
    else
      var e := es[|es| - 1];
      ShiftsOver(es[..|es| - 1], count) + Entry(e, count(e), 0.3 * count(e) as real)
  }

  /** The shifts the trigger words in `input` cause. */
  function TriggerShifts(input: string): seq<(Emotion, real)> {
    ShiftsOver(AllEmotions, TriggerCount(Lower(input)))
  }

  /** Only emotions of `es` get an entry, and every entry is positive. */
  lemma {:induction false} ShiftsOverEntries(es: seq<Emotion>, count: Emotion -> nat)
    ensures forall p :: p in ShiftsOver(es, count) ==> p.0 in es && p.1 > 0.0
  {
    if es != [] {
      var init := es[..|es| - 1];
      var last := es[|es| - 1];
      ShiftsOverEntries(init, count);
      assert es == init + [last];
    }
  }

  lemma {:induction false} ShiftsOverGet(es: seq<Emotion>, count: Emotion -> nat, e: Emotion)
    requires forall i, j :: 0 <= i < j < |es| ==> es[i] != es[j]
    ensures Get(ShiftsOver(es, count), e) == if e in es && count(e) > 0 then Some(0.3 * count(e) as real) else None
  {
    if es != [] {
      var init := es[..|es| - 1];
      var last := es[|es| - 1];
      ShiftsOverGet(init, count, e);
      GetConcat(ShiftsOver(init, count), Entry(last, count(last), 0.3 * count(last) as real), e);
      assert es == init + [last];
    }
  }

  lemma {:induction false} ShiftsOverOrder(es: seq<Emotion>, count: Emotion -> nat)
    requires InEnumOrder(es)
    ensures KeysInEnumOrder(ShiftsOver(es, count))
  {
    if es != [] {
      var init := es[..|es| - 1];
      var last := es[|es| - 1];
      ShiftsOverOrder(init, count);
      ShiftsOverEntries(init, count);
      var d := ShiftsOver(init, count);
      forall i | 0 <= i < |d| ensures Ord(d[i].0) < Ord(last) {
        assert d[i] in d;
        var j :| 0 <= j < |init| && init[j] == d[i].0;
        assert Ord(es[j]) < Ord(es[|es| - 1]);
      }
    }
  }

  /**
   * Each emotion's shift is 0.3 times the number of its trigger words found in the lowered
   * input, and an emotion none of whose triggers occurs has no entry.
   */
  lemma ShiftScore(input: string, e: Emotion)
    ensures var n := TriggerCount(Lower(input))(e);
      Get(TriggerShifts(input), e) == if n > 0 then Some(0.3 * n as real) else None
  {
    AllEmotionsComplete();
    ShiftsOverGet(AllEmotions, TriggerCount(Lower(input)), e);
  }

  /** Before the loop reaches an emotion of a repetition-free list, it has no shift. */
  lemma ShiftsOverAbsent(es: seq<Emotion>, count: Emotion -> nat, i: nat)
    requires forall a, b :: 0 <= a < b < |es| ==> es[a] != es[b]
    requires i < |es|
    ensures Get(ShiftsOver(es[..i], count), es[i]).None?
  {
    ShiftsOverGet(es[..i], count, es[i]);
  }

  /** One more trigger found adds 0.3 to the emotion's shift, creating the entry at the end. */
  lemma EntryStep(before: seq<(Emotion, real)>, e: Emotion, n: nat)
    requires Get(before, e).None?
    ensures var d := before + Entry(e, n, 0.3 * n as real);
      Put(d, e, GetOr(d, e, 0.0) + 0.3) == before + Entry(e, n + 1, 0.3 * (n + 1) as real)
  {
    if n == 0 {
      assert before + Entry(e, n, 0.3 * n as real) == before;
      PutAbsent(before, e, 0.0 + 0.3);
    } else {
      GetConcat(before, [(e, 0.3 * n as real)], e);
      PutLast(before, e, 0.3 * n as real + 0.3, 0.3 * n as real);
    }
  }

  /** `ShiftsOver` of the first `i` emotions, counted by position rather than by slicing. */
  function ShiftsUpTo(es: seq<Emotion>, i: nat, count: Emotion -> nat): seq<(Emotion, real)>
    requires i <= |es|
  {
    if i == 0 then [] else ShiftsUpTo(es, i - 1, count) + Entry(es[i - 1], count(es[i - 1]), 0.3 * count(es[i - 1]) as real)
  }

  lemma {:induction false} ShiftsUpToOver(es: seq<Emotion>, i: nat, count: Emotion -> nat)
    requires i <= |es|
    ensures ShiftsUpTo(es, i, count) == ShiftsOver(es[..i], count)
  {
    if i > 0 {
      ShiftsUpToOver(es, i - 1, count);
      assert es[..i][..i - 1] == es[..i - 1];
    }
  }

  /** The shifts are keyed in `EmotionType` order, each emotion at most once. */
  lemma ShiftsInEnumOrder(input: string)
    ensures KeysInEnumOrder(TriggerShifts(input))
    ensures DistinctKeys(TriggerShifts(input))
  {
    AllEmotionsInOrder();
    ShiftsOverOrder(AllEmotions, TriggerCount(Lower(input)));
  }

  /** No shift at all exactly when no trigger word of any emotion occurs in the lowered input. */
  lemma NoShiftIffNoTrigger(input: string)
    ensures TriggerShifts(input) == [] <==> forall e :: TriggerCount(Lower(input))(e) == 0
  {
    var d := TriggerShifts(input);
    if d != [] {
      ShiftScore(input, d[0].0);
    } else {
      forall e ensures TriggerCount(Lower(input))(e) == 0 {
        ShiftScore(input, e);
      }
    }
  }

  // ---------------------------------------------------------------- the emotional state machine

  /** Index of the item `max(d.items(), key=lambda x: x[1])` returns: the first largest value. */
  function FirstMax<K>(d: seq<(K, real)>): (k: nat)
    requires d != []
    ensures k < |d|
    ensures forall j :: 0 <= j < |d| ==> d[j].1 <= d[k].1
    ensures forall j :: 0 <= j < k ==> d[j].1 < d[k].1
  {
    if |d| == 1 then 0
    else
      var k := FirstMax(d[..|d| - 1]);
      if d[|d| - 1].1 > d[k].1 then |d| - 1 else k
  }

  /** `{k: v for k, v in d.items() if k != key}` */
  function Without(d: seq<(Emotion, real)>, key: Emotion): (r: seq<(Emotion, real)>)
    ensures forall p :: p in r <==> p in d && p.0 != key
  {
    if d == [] then []
    else (if d[0].0 != key then [d[0]] else []) + Without(d[1..], key)
  }

  /** The state built from non-empty shifts at clock reading `now`. */
  function Shifted(shifts: seq<(Emotion, real)>, now: int): (s: EmotionalState)
    requires shifts != []
    ensures s.intensity <= 1.0
    ensures forall p :: p in s.secondary ==> p.0 != s.primary
  {
    var k := FirstMax(shifts);
    EmotionalState(shifts[k].0, Cap(shifts[k].1), Without(shifts, shifts[k].0), now)
  }

  /**
   * The state built from shifts in which every emotion `e` with `count(e) > 0`, and only those,
   * has the entry `0.3 * count(e)`, keyed in `EmotionType` order.
   */
  lemma {:induction false} ShiftedFromCounts(d: seq<(Emotion, real)>, count: Emotion -> nat, now: int)
    requires d != [] && KeysInEnumOrder(d) && DistinctKeys(d)
    requires forall e :: Get(d, e) == if count(e) > 0 then Some(0.3 * count(e) as real) else None
    ensures var s := Shifted(d, now);
      var top := count(s.primary);
      && top > 0
      && s.intensity == Cap(0.3 * top as real)
      && (forall e :: count(e) <= top)
      && (forall e :: Ord(e) < Ord(s.primary) ==> count(e) < top)
      && (forall p :: p in s.secondary <==> p.0 != s.primary && Get(d, p.0) == Some(p.1))
  {
    var k := FirstMax(d);
    LargestCount(d, count);
    WithoutIsRest(d, d[k].0);
  }

  /** The first largest shift belongs to an emotion with the most trigger words, the first such in order. */
  lemma LargestCount(d: seq<(Emotion, real)>, count: Emotion -> nat)
    requires d != [] && KeysInEnumOrder(d) && DistinctKeys(d)
    requires forall e :: Get(d, e) == if count(e) > 0 then Some(0.3 * count(e) as real) else None
    ensures count(d[FirstMax(d)].0) > 0
    ensures d[FirstMax(d)].1 == 0.3 * count(d[FirstMax(d)].0) as real
    ensures forall e :: count(e) <= count(d[FirstMax(d)].0)
    ensures forall e :: Ord(e) < Ord(d[FirstMax(d)].0) ==> count(e) < count(d[FirstMax(d)].0)
  {
    var k := FirstMax(d);
    var primary := d[k].0;
    GetOfMember(d, k);
    var top := count(primary);
    forall e ensures count(e) <= top && (Ord(e) < Ord(primary) ==> count(e) < top) {
      if count(e) > 0 {
        GetIn(d, e);
        var j :| 0 <= j < |d| && d[j] == (e, 0.3 * count(e) as real);
        if Ord(e) < Ord(primary) {
          assert j < k;
        }
      }
    }
  }

  /** Leaving one key out of a dict keeps exactly the other entries. */
  lemma WithoutIsRest(d: seq<(Emotion, real)>, key: Emotion)
    requires DistinctKeys(d)
    ensures forall p :: p in Without(d, key) <==> p.0 != key && Get(d, p.0) == Some(p.1)
  {
    forall p ensures p in Without(d, key) <==> p.0 != key && Get(d, p.0) == Some(p.1) {
      if p in d {
        var j :| 0 <= j < |d| && d[j] == p;
        GetOfMember(d, j);
      }
      if Get(d, p.0) == Some(p.1) {
        GetIn(d, p.0);
      }
    }
  }

  /**
   * With at least one trigger word present, the new primary emotion is the one with the most
   * trigger words found, the first in `EmotionType` order among equals; its intensity is 0.3 per
   * trigger word capped at 1.0; every other triggered emotion, and only those, is a secondary
   * with its own shift.
   */
  lemma ShiftPicksLargest(input: string, now: int)
    requires TriggerShifts(input) != []
    ensures var s := Shifted(TriggerShifts(input), now);
      var count := TriggerCount(Lower(input));
      var top := count(s.primary);
      && top > 0
      && s.intensity == Cap(0.3 * top as real)
      && (forall e :: count(e) <= top)
      && (forall e :: Ord(e) < Ord(s.primary) ==> count(e) < top)
      && (forall p :: p in s.secondary <==> p.0 != s.primary && Get(TriggerShifts(input), p.0) == Some(p.1))
  {
    var d := TriggerShifts(input);
    var count := TriggerCount(Lower(input));
    ShiftsInEnumOrder(input);
    forall e ensures Get(d, e) == if count(e) > 0 then Some(0.3 * count(e) as real) else None {
      ShiftScore(input, e);
    }
    ShiftedFromCounts(d, count, now);
  }

  /** The newest non-NEUTRAL primary emotion among `states`, NEUTRAL when there is none. */
  function NewestNonNeutral(states: seq<EmotionalState>): Emotion {
    if states == [] then Neutral
    else if states[|states| - 1].primary != Neutral then states[|states| - 1].primary
    else NewestNonNeutral(states[..|states| - 1])
  }

  /** `_get_recent_emotional_context`: the newest non-NEUTRAL emotion of the last ten states. */
  function RecentEmotion(history: seq<EmotionalState>): Emotion {
    NewestNonNeutral(PySliceFrom(history, -10))
  }

  lemma {:induction false} NewestNonNeutralMeaning(states: seq<EmotionalState>)
    ensures var r := NewestNonNeutral(states);
      && (r == Neutral <==> forall i :: 0 <= i < |states| ==> states[i].primary == Neutral)
      && (r != Neutral ==> exists i :: 0 <= i < |states| && states[i].primary == r
                              && forall j :: i < j < |states| ==> states[j].primary == Neutral)
  {
    if states != [] && states[|states| - 1].primary == Neutral {
      var init := states[..|states| - 1];
      NewestNonNeutralMeaning(init);
      var r := NewestNonNeutral(init);
      if r != Neutral {
        var i :| 0 <= i < |init| && init[i].primary == r && forall j :: i < j < |init| ==> init[j].primary == Neutral;
        assert states[i].primary == r;
      }
    }
  }

  /**
   * The recent emotion is NEUTRAL exactly when all of the last ten states are NEUTRAL; otherwise
   * it is the primary emotion of one of them after which only NEUTRAL states follow.
   */
  lemma RecentEmotionMeaning(history: seq<EmotionalState>)
    ensures var w := PySliceFrom(history, -10);
      var r := RecentEmotion(history);
      && |w| <= 10
      && (r == Neutral <==> forall i :: 0 <= i < |w| ==> w[i].primary == Neutral)
      && (r != Neutral ==> exists i :: 0 <= i < |w| && w[i].primary == r
                              && forall j :: i < j < |w| ==> w[j].primary == Neutral)
  {
    NewestNonNeutralMeaning(PySliceFrom(history, -10));
  }

  /** The shifts `_update_emotional_state` acts on: the triggered ones, else 0.2 of the recent emotion. */
  function Shifts(history: seq<EmotionalState>, input: string): seq<(Emotion, real)> {
    var triggered := TriggerShifts(input);
    var recent := RecentEmotion(history);
    if triggered != [] then triggered
    else if recent != Neutral then [(recent, 0.2)]
    else []
  }

  /** The emotional state `_update_emotional_state` leaves after acting on `shifts` at clock reading `now`. */
  function NextState(state: EmotionalState, shifts: seq<(Emotion, real)>, now: int): EmotionalState {
    if shifts != [] then Shifted(shifts, now)
    else if state.intensity > 0.3 then state.(intensity := state.intensity * 0.8)
    else EmotionalState(Neutral, 0.3, [], now)
  }

  /** The emotional history after the same call. */
  function NextHistory(state: EmotionalState, history: seq<EmotionalState>, shifts: seq<(Emotion, real)>, now: int): seq<EmotionalState> {
    if shifts != [] then Newest(history + [NextState(state, shifts, now)], 50)
    else history
  }

  /** Every shift is positive. */
  lemma ShiftsPositive(history: seq<EmotionalState>, input: string)
    ensures forall p :: p in Shifts(history, input) ==> p.1 > 0.0
  {
    ShiftsOverEntries(AllEmotions, TriggerCount(Lower(input)));
  }

  /**
   * There is no shift exactly when no trigger word occurs in the lowered input and none of the
   * last ten states has a non-NEUTRAL primary emotion.
   */
  lemma NoShiftIff(history: seq<EmotionalState>, input: string)
    ensures Shifts(history, input) == [] <==>
      (forall e :: TriggerCount(Lower(input))(e) == 0)
      && (forall i :: 0 <= i < |PySliceFrom(history, -10)| ==> PySliceFrom(history, -10)[i].primary == Neutral)
  {
    NoShiftIffNoTrigger(input);
    RecentEmotionMeaning(history);
  }

  /**
   * Without a trigger word, a non-NEUTRAL emotion among the last ten states becomes primary again
   * at intensity 0.2, with no secondaries.
   */
  lemma FallbackToRecent(state: EmotionalState, history: seq<EmotionalState>, input: string, now: int)
    requires TriggerShifts(input) == [] && RecentEmotion(history) != Neutral
    ensures NextState(state, Shifts(history, input), now) == EmotionalState(RecentEmotion(history), 0.2, [], now)
  {
    var shifts := Shifts(history, input);
    assert shifts == [(RecentEmotion(history), 0.2)];
    assert FirstMax(shifts) == 0;
    assert Without(shifts, RecentEmotion(history)) == [];
  }

  /**
   * With no shift at all, an intensity above 0.3 decays by a factor 0.8 and nothing else
   * changes; otherwise the state resets to NEUTRAL at 0.3; the history is left alone.
   */
  lemma DecayOrReset(state: EmotionalState, history: seq<EmotionalState>, now: int)
    ensures var next := NextState(state, [], now);
      && (state.intensity > 0.3 ==> next == state.(intensity := state.intensity * 0.8))
      && (state.intensity <= 0.3 ==> next == EmotionalState(Neutral, 0.3, [], now))
    ensures NextHistory(state, history, [], now) == history
  {
  }

  /** Intensity stays within 0.0 .. 1.0 when every shift is non-negative. */
  lemma IntensityStaysInRange(state: EmotionalState, shifts: seq<(Emotion, real)>, now: int)
    requires IntensityInRange(state)
    requires forall p :: p in shifts ==> p.1 >= 0.0
    ensures IntensityInRange(NextState(state, shifts, now))
  {
    if shifts != [] {
      var k := FirstMax(shifts);
      assert shifts[k] in shifts;
    }
  }

  /**
   * The history gains the new state only when there was a shift, and keeps at most its newest
   * 50 entries.
   */
  lemma HistoryBounded(state: EmotionalState, history: seq<EmotionalState>, shifts: seq<(Emotion, real)>, now: int)
    ensures var h := NextHistory(state, history, shifts, now);
      && (|history| <= 50 ==> |h| <= 50)
      && (shifts == [] ==> h == history)
      && (shifts != [] ==>
            && |h| == (if |history| < 50 then |history| + 1 else 50)
            && h[|h| - 1] == NextState(state, shifts, now)
            && h[..|h| - 1] == history[|history| + 1 - |h|..])
  {
    if shifts != [] {
      var full := history + [NextState(state, shifts, now)];
      var h := Newest(full, 50);
      assert h == full[|full| - |h|..];
      assert h[..|h| - 1] == full[|full| - |h|..|full| - 1];
    }
  }
  // ---------------------------------------------------------------- emotional analysis

  /** How many of a word list occur in the lowered text `text`. */
  function FoundIn(text: string): seq<string> -> nat {
    ws => Found(ws, text)
  }

  /**
   * `get_emotional_analysis` after its loop has run over the entries `table` of
   * `EMOTIONAL_TRIGGERS`, with `count(ws)` of the words `ws` found: 0.1 per word, capped at 1.0,
   * and only for emotions that scored.
   */
  function AnalysisOver(table: seq<(Emotion, seq<string>)>, count: seq<string> -> nat): seq<(Emotion, real)> {
    if table == [] then []
    else
      var prefix := AnalysisOver(table[..|table| - 1], count);
      var entry := table[|table| - 1];
      if count(entry.1) > 0 then Put(prefix, entry.0, Cap(0.1 * count(entry.1) as real)) else prefix
  }

  /** The scores `get_emotional_analysis(text)` returns. */
  function Analysis(text: string): seq<(Emotion, real)> {
    AnalysisOver(EmotionalTriggers, FoundIn(Lower(text)))
  }

  /** The score of an emotion whose trigger words, if it has any, are `ws`. */
  function Scored(ws: Option<seq<string>>, count: seq<string> -> nat): Option<real> {
    if ws.Some? && count(ws.value) > 0 then Some(Cap(0.1 * count(ws.value) as real)) else None
  }

  /** Over a table with distinct keys, an emotion scores exactly when some of its words are counted. */
  lemma {:induction false} AnalysisOverGet(table: seq<(Emotion, seq<string>)>, count: seq<string> -> nat, e: Emotion)
    requires DistinctKeys(table)
    ensures Get(AnalysisOver(table, count), e) == Scored(Get(table, e), count)
  {
    if table != [] {
      var init := table[..|table| - 1];
      var last := table[|table| - 1];
      var prefix := AnalysisOver(init, count);
      assert table == init + [last];
      DistinctInit(table);
      AnalysisOverGet(init, count, e);
      GetConcat(init, [last], e);
      if last.0 == e {
        assert Get(table, e) == Some(last.1);
        assert Get(prefix, e).None?;
      } else {
        assert Get(table, e) == Get(init, e);
        if count(last.1) > 0 {
          PutOther(prefix, last.0, Cap(0.1 * count(last.1) as real), e);
        }
      }
    }
  }

  /**
   * Each emotion of the trigger table scores 0.1 per trigger word found in the lowered text, and
   * an emotion none of whose triggers occurs has no score; no score reaches the 1.0 cap.
   */
  lemma AnalysisScore(text: string, e: Emotion)
    ensures var n := TriggerCount(Lower(text))(e);
      && Get(Analysis(text), e) == (if n > 0 then Some(0.1 * n as real) else None)
      && n <= 6
  {
    TriggerTable(e);
    AnalysisOverGet(EmotionalTriggers, FoundIn(Lower(text)), e);
    assert TriggerCount(Lower(text))(e) == Found(Triggers(e), Lower(text));
  }

  /**
   * The analysis and the state update see the same emotions: an emotion has an analysis score
   * exactly when it has a shift, and its shift is three times its score.
   */
  lemma AnalysisMatchesShifts(text: string, e: Emotion)
    ensures Get(Analysis(text), e).Some? <==> Get(TriggerShifts(text), e).Some?
    ensures Get(Analysis(text), e).Some? ==> Get(TriggerShifts(text), e).value == 3.0 * Get(Analysis(text), e).value
  {
    AnalysisScore(text, e);
    ShiftScore(text, e);
  }

  // ---------------------------------------------------------------- learning and adaptation

  /** Python truthiness of a configuration value. */
  predicate Truthy(v: Value) {
    match v
    case Dict(entries) => entries != map[]
    case List(items) => items != []
    case Str(s) => s != ""
    case Int(i) => i != 0
    case Real(r) => r != 0.0
    case Bool(b) => b
    case Null => false
  }

  /** The configuration section the engine's learning settings live in, and their dotted keys. */
  const PersonalitySection: string := "personality"
  const LearningEnabledKey: string := PersonalitySection + ".learning_enabled"
  const AdaptationRateKey: string := PersonalitySection + ".adaptation_rate"

  /** `personality.learning_enabled`, on by default. */
  predicate LearningEnabled(cfg: Value) {
    Truthy(Resolve(cfg, LearningEnabledKey, Bool(true)))
  }

  /** `personality.adaptation_rate`, 0.1 by default. */
  function AdaptationRate(cfg: Value): Value {
    Resolve(cfg, AdaptationRateKey, Real(0.1))
  }

  const FactIndicators: seq<string> := ["i like", "i love", "i hate", "i'm", "my favorite", "i enjoy"]

  /** Some phrase of `phrases` occurs in `text`. */
  predicate AnyOccurs(text: string, phrases: seq<string>) {
    exists i :: 0 <= i < |phrases| && Contains(text, phrases[i])
  }

  lemma AnyOccursSnoc(text: string, phrases: seq<string>, p: string)
    ensures AnyOccurs(text, phrases + [p]) <==> AnyOccurs(text, phrases) || Contains(text, p)
  {
    if Contains(text, p) {
      assert (phrases + [p])[|phrases|] == p;
    }
    if AnyOccurs(text, phrases) {
      var i :| 0 <= i < |phrases| && Contains(text, phrases[i]);
      assert (phrases + [p])[i] == phrases[i];
    }
  }

  /** Some indicator phrase occurs in the lowered input. */
  predicate StatesFact(input: string) {
    AnyOccurs(Lower(input), FactIndicators)
  }

  /** The value `adaptation_rate * 0.1` multiplies: a number, a bool as 0 or 1, otherwise a type error. */
  function AsNumber(v: Value): Option<real> {
    match v
    case Int(i) => Some(i as real)
    case Real(r) => Some(r)
    case Bool(b) => Some(if b then 1.0 else 0.0)
    case _ => None
  }

  /** Both sides of the exchange asked a question. */
  predicate BothAsk(userInput: string, aiResponse: string) {
    Contains(userInput, "?") && Contains(aiResponse, "?")
  }

  /** `personality_traits` after curiosity grows by `rate * 0.1`, capped at 1.0. */
  function Adapted(traits: seq<(string, real)>, rate: real): seq<(string, real)> {
    Put(traits, "curious", Cap(GetOr(traits, "curious", 0.7) + rate * 0.1))
  }

  /** `_initialize_personality`: every trait at strength 0.7, a repeated trait once. */
  function InitialPersonality(traits: seq<string>): seq<(string, real)> {
    if traits == [] then []
    else Put(InitialPersonality(traits[..|traits| - 1]), traits[|traits| - 1], 0.7)
  }

  /** The initial personality holds exactly the listed traits, each at 0.7. */
  lemma {:induction false} InitialPersonalityUniform(traits: seq<string>)
    ensures forall t :: Get(InitialPersonality(traits), t) == if t in traits then Some(0.7) else None
    ensures forall p :: p in InitialPersonality(traits) ==> p.1 == 0.7
  {
    if traits != [] {
      var init := traits[..|traits| - 1];
      var last := traits[|traits| - 1];
      InitialPersonalityUniform(init);
      PutEntries(InitialPersonality(init), last, 0.7);
      assert traits == init + [last];
      forall t | t != last ensures Get(InitialPersonality(traits), t) == Get(InitialPersonality(init), t) {
        PutOther(InitialPersonality(init), last, 0.7, t);
      }
    }
  }

  // ---------------------------------------------------------------- context strings

  /** `_prepare_messages`: the context as a system message when there is one, then the input. */
  function PrepareMessages(userInput: string, context: string): (r: seq<ChatMessage>)
    ensures |r| >= 1 && r[|r| - 1] == ChatMessage("user", userInput)
    ensures |r| == 2 <==> context != ""
    ensures |r| == 2 ==> r[0] == ChatMessage("system", "Conversation context:\n" + context)
  {
    (if context != "" then [ChatMessage("system", "Conversation context:\n" + context)] else [])
      + [ChatMessage("user", userInput)]
  }

  /** `[m.content for m in recent if m.memory_type == "conversation"]` */
  function ConversationParts(recent: seq<Memories.Memory>): seq<string> {
    if recent == [] then []
    else
      var m := recent[|recent| - 1];
      ConversationParts(recent[..|recent| - 1]) + (if m.memoryType == "conversation" then [m.content] else [])
  }

  function RelevantParts(hits: seq<VectorDb.VectorRecord>): seq<string> {
    seq(|hits|, i requires 0 <= i < |hits| => "Relevant memory: " + hits[i].content)
  }

  function FactParts(facts: seq<LearnedFact>): seq<string> {
    seq(|facts|, i requires 0 <= i < |facts| => "Known fact: " + facts[i].fact)
  }

  /** The parts `_prepare_enhanced_context` joins: conversations, semantic hits, the last three facts. */
  function ContextParts(recent: seq<Memories.Memory>, hits: seq<VectorDb.VectorRecord>, facts: seq<LearnedFact>): seq<string> {
    ConversationParts(recent) + RelevantParts(hits) + FactParts(PySliceFrom(facts, -3))
  }

  lemma {:induction false} ConversationPartsBound(recent: seq<Memories.Memory>)
    ensures |ConversationParts(recent)| <= |recent|
  {
    if recent != [] {
      ConversationPartsBound(recent[..|recent| - 1]);
    }
  }

  /**
   * The enhanced context has at most one part per recent record and per hit plus three facts,
   * and once a fact is known it ends with the newest one.
   */
  lemma EnhancedContextShape(recent: seq<Memories.Memory>, hits: seq<VectorDb.VectorRecord>, facts: seq<LearnedFact>)
    ensures |ContextParts(recent, hits, facts)| <= |recent| + |hits| + 3
    ensures facts != [] ==>
      var c := Join("\n", ContextParts(recent, hits, facts));
      var last := "Known fact: " + facts[|facts| - 1].fact;
      |last| <= |c| && c[|c| - |last|..] == last
  {
    ConversationPartsBound(recent);
    var parts := ContextParts(recent, hits, facts);
    if facts != [] {
      var newest := PySliceFrom(facts, -3);
      assert newest[|newest| - 1] == facts[|facts| - 1];
      assert parts[|parts| - 1] == "Known fact: " + facts[|facts| - 1].fact;
      JoinLast("\n", parts);
    }
  }

  /** The intensity band of `_get_emotional_context` and `_get_emotional_context_string`. */
  function IntensityWord(intensity: real): string {
    if intensity < 0.4 then "slightly" else if intensity < 0.7 then "moderately" else "very"
  }

  /** The three bands, each exactly on its interval. */
  lemma IntensityBands(intensity: real)
    ensures IntensityWord(intensity) == "slightly" <==> intensity < 0.4
    ensures IntensityWord(intensity) == "moderately" <==> 0.4 <= intensity < 0.7
    ensures IntensityWord(intensity) == "very" <==> 0.7 <= intensity
  {
    assert "slightly"[0] != "moderately"[0] && "slightly"[0] != "very"[0] && "moderately"[0] != "very"[0];
  }

  /** `_get_emotional_context_string`: the band, an underscore, the emotion's value. */
  function EmotionalContextString(state: EmotionalState): string {
    IntensityWord(state.intensity) + "_" + EmotionTypes.Value(state.primary)
  }

  /** The stored context string splits back into its band and an emotion value that names the primary emotion. */
  lemma ContextStringRoundTrip(state: EmotionalState)
    ensures var parts := SplitOn(EmotionalContextString(state), "_");
      && parts == [IntensityWord(state.intensity), EmotionTypes.Value(state.primary)]
      && FromValue(parts[1]) == Some(state.primary)
  {
    var w := IntensityWord(state.intensity);
    var v := EmotionTypes.Value(state.primary);
    NotInByIndex(w, '_');
    NotInByIndex(v, '_');
    SplitOnCharFirst(w, '_', v);
    SplitOnCharAbsent(v, '_');
    assert w + "_" + v == w + ['_'] + v;
    var r := FromValue(v);
    assert r.Some?;
    ValuesDistinct(r.value, state.primary);
  }

  /** `[f"{e.value} ({v:.1f})" for e, v in secondary.items() if v > 0.3]`, `fmt` rendering a float. */
  function Significant(secondary: seq<(Emotion, real)>, fmt: real -> string): seq<string> {
    if secondary == [] then []
    else
      (if secondary[0].1 > 0.3 then [EmotionTypes.Value(secondary[0].0) + " (" + fmt(secondary[0].1) + ")"] else [])
        + Significant(secondary[1..], fmt)
  }

  lemma {:induction false} SignificantEmpty(secondary: seq<(Emotion, real)>, fmt: real -> string)
    ensures Significant(secondary, fmt) == [] <==> forall i :: 0 <= i < |secondary| ==> secondary[i].1 <= 0.3
  {
    if secondary != [] {
      SignificantEmpty(secondary[1..], fmt);
    }
  }

  /** `_get_emotional_context` */
  function EmotionalContext(state: EmotionalState, fmt: real -> string): string {
    var head := "Current emotional state: " + IntensityWord(state.intensity) + " " + EmotionTypes.Value(state.primary);
    var significant := Significant(state.secondary, fmt);
    if significant != [] then head + ". Also feeling: " + Join(", ", significant) else head
  }

  /**
   * The emotional context names the band and the primary emotion, and says more exactly when some
   * secondary emotion is above 0.3.
   */
  lemma EmotionalContextShape(state: EmotionalState, fmt: real -> string)
    ensures var head := "Current emotional state: " + IntensityWord(state.intensity) + " " + EmotionTypes.Value(state.primary);
      var r := EmotionalContext(state, fmt);
      && |head| <= |r| && r[..|head|] == head
      && (r == head <==> forall i :: 0 <= i < |state.secondary| ==> state.secondary[i].1 <= 0.3)
  {
    SignificantEmpty(state.secondary, fmt);
    var head := "Current emotional state: " + IntensityWord(state.intensity) + " " + EmotionTypes.Value(state.primary);
    var r := EmotionalContext(state, fmt);
    if Significant(state.secondary, fmt) != [] {
      assert |r| > |head|;
      assert r[..|head|] == head;
    }
  }

  /** `[trait for trait, strength in traits.items() if strength > 0.7]` */
  function StrongTraits(traits: seq<(string, real)>): seq<string> {
    if traits == [] then []
    else (if traits[0].1 > 0.7 then [traits[0].0] else []) + StrongTraits(traits[1..])
  }

  lemma {:induction false} StrongTraitsMembers(traits: seq<(string, real)>)
    ensures forall t :: t in StrongTraits(traits) <==> exists v :: (t, v) in traits && v > 0.7
  {
    if traits != [] {
      StrongTraitsMembers(traits[1..]);
      assert forall p :: p in traits <==> p == traits[0] || p in traits[1..];
    }
  }

  lemma {:induction false} StrongTraitsNone(traits: seq<(string, real)>)
    requires forall p :: p in traits ==> p.1 <= 0.7
    ensures StrongTraits(traits) == []
  {
    if traits != [] {
      assert traits[0] in traits;
      StrongTraitsNone(traits[1..]);
    }
  }

  /** `_get_personality_context` */
  function PersonalityContext(traits: seq<(string, real)>): string {
    var strong := StrongTraits(traits);
    if strong != [] then "Current personality emphasis: " + Join(", ", strong) else "Personality: balanced"
  }

  /** A freshly initialised personality, every trait at 0.7, is balanced. */
  lemma FreshPersonalityBalanced(traits: seq<string>)
    ensures PersonalityContext(InitialPersonality(traits)) == "Personality: balanced"
  {
    InitialPersonalityUniform(traits);
    StrongTraitsNone(InitialPersonality(traits));
  }

  /**
   * Adapting at a positive rate from a curiosity of at least the default 0.7 leaves curiosity
   * above 0.7 and at most 1.0, so the personality context emphasises it; other traits keep their strength.
   */
  lemma CuriosityEmphasised(traits: seq<(string, real)>, rate: real)
    requires rate > 0.0 && GetOr(traits, "curious", 0.7) >= 0.7
    ensures var c := GetOr(Adapted(traits, rate), "curious", 0.0); 0.7 < c <= 1.0
    ensures "curious" in StrongTraits(Adapted(traits, rate))
    ensures PersonalityContext(Adapted(traits, rate)) != "Personality: balanced"
    ensures forall t :: t != "curious" ==> Get(Adapted(traits, rate), t) == Get(traits, t)
  {
    var a := Adapted(traits, rate);
    var c := Cap(GetOr(traits, "curious", 0.7) + rate * 0.1);
    assert Get(a, "curious") == Some(c);
    GetIn(a, "curious");
    StrongTraitsMembers(a);
    forall t | t != "curious" ensures Get(a, t) == Get(traits, t) {
      PutOther(traits, "curious", c, t);
    }
    var strong := StrongTraits(a);
    assert "curious" in strong;
    var prefix := "Current personality emphasis: ";
    assert PersonalityContext(a) == prefix + Join(", ", strong);
    assert PersonalityContext(a)[0] == prefix[0];
  }

  /** The names of the active integrations, in a fixed order. */
  function ActiveIntegrations(i: Integrations): seq<string> {
    (if i.discord then ["Discord"] else [])
      + (if i.vtubeStudio then ["VTube Studio (avatar)"] else [])
      + (if i.tts then ["Text-to-Speech"] else [])
  }

  /** `_get_integration_context` */
  function IntegrationContext(i: Integrations): string {
    var active := ActiveIntegrations(i);
    if active != [] then "Active integrations: " + Join(", ", active) else "No active integrations"
  }

  /** The context reports no integration exactly when none is active, and lists one when only it is. */
  lemma IntegrationContextShape(i: Integrations)
    ensures IntegrationContext(i) == "No active integrations" <==> !i.discord && !i.vtubeStudio && !i.tts
    ensures i == Integrations(false, false, true) ==> IntegrationContext(i) == "Active integrations: Text-to-Speech"
  {
    var r := IntegrationContext(i);
    if ActiveIntegrations(i) != [] {
      assert r[0] == 'A';
    }
  }

  // ---------------------------------------------------------------- the engine

  class AIEngine {
    const config: Config.ConfigManager
    /** The memory manager `process_message` stores conversations in. */
    const memory: BasicMemory.BasicMemoryManager
    /** The engine's own embedding index, present when semantic search is enabled. */
    var vectorMemory: VectorDb.VectorMemory?
    var current: EmotionalState
    var emotionalHistory: seq<EmotionalState>
    var personality: seq<(string, real)>
    var learnedFacts: seq<LearnedFact>
    var integrations: Integrations
    var conversationHistory: seq<ChatMessage>

    /**
     * `AIEngine()`: NEUTRAL at 0.5 with the character's base emotions as secondaries (clock
     * reading `now`), one trait strength of 0.7 per character trait, nothing learned or integrated.
     */
    constructor (config: Config.ConfigManager, memory: BasicMemory.BasicMemoryManager,
                 traits: seq<string>, baseEmotions: seq<(Emotion, real)>, now: int)
      ensures this.config == config && this.memory == memory && vectorMemory == null
      ensures current == EmotionalState(Neutral, 0.5, baseEmotions, now) && emotionalHistory == []
      ensures personality == InitialPersonality(traits)
      ensures learnedFacts == [] && conversationHistory == []
      ensures integrations == Integrations(false, false, false)
    {
      this.config := config;
      this.memory := memory;
      vectorMemory := null;
      current := EmotionalState(Neutral, 0.5, baseEmotions, now);
      emotionalHistory := [];
      var strengths: seq<(string, real)> := [];
      for i := 0 to |traits|
        invariant strengths == InitialPersonality(traits[..i])
      {
        assert traits[..i + 1][..i] == traits[..i];
        strengths := Put(strengths, traits[i], 0.7);
      }
      assert traits[..|traits|] == traits;
      personality := strengths;
      learnedFacts := [];
      integrations := Integrations(false, false, false);
      conversationHistory := [];
    }

    /** `_get_recent_emotional_context` */
    method GetRecentEmotionalContext() returns (r: Emotion)
      ensures r == RecentEmotion(emotionalHistory)
    {
      if emotionalHistory == [] {
        return Neutral;
      }
      var window := PySliceFrom(emotionalHistory, -10);
      var i := |window|;
      assert window[..i] == window;
      while i > 0
        invariant 0 <= i <= |window|
        invariant NewestNonNeutral(window) == NewestNonNeutral(window[..i])
      {
        assert window[..i][..i - 1] == window[..i - 1];
        if window[i - 1].primary != Neutral {
          return window[i - 1].primary;
        }
        i := i - 1;
      }
      return Neutral;
    }

    /** `_update_emotional_state(userInput)` at clock reading `now`. */
    method UpdateEmotionalState(userInput: string, now: int)
      modifies this`current, this`emotionalHistory
      ensures current == NextState(old(current), Shifts(old(emotionalHistory), userInput), now)
      ensures emotionalHistory == NextHistory(old(current), old(emotionalHistory), Shifts(old(emotionalHistory), userInput), now)
    {
      var shifts := DetectShifts(Lower(userInput), AllEmotions, Triggers);
      if shifts == [] {
        var recent := GetRecentEmotionalContext();
        if recent != Neutral {
          shifts := [(recent, 0.2)];
        }
      }
      ApplyShifts(shifts, now);
    }

    /** The second half of `_update_emotional_state`: the strongest shift wins, otherwise decay. */
    method ApplyShifts(shifts: seq<(Emotion, real)>, now: int)
      modifies this`current, this`emotionalHistory
      ensures current == NextState(old(current), shifts, now)
      ensures emotionalHistory == NextHistory(old(current), old(emotionalHistory), shifts, now)
    {
      if shifts != [] {
        var k := FirstMax(shifts);
        current := EmotionalState(shifts[k].0, Cap(shifts[k].1), Without(shifts, shifts[k].0), now);
        emotionalHistory := emotionalHistory + [current];
        if |emotionalHistory| > 50 {
          emotionalHistory := emotionalHistory[|emotionalHistory| - 50..];
        }
      } else if current.intensity > 0.3 {
        current := current.(intensity := current.intensity * 0.8);
      } else {
        current := EmotionalState(Neutral, 0.3, [], now);
      }
    }

    /** The trigger loop of `_update_emotional_state`, over every emotion in `EmotionType` order. */
    static method DetectShifts(inputLower: string, es: seq<Emotion>, table: Emotion -> seq<string>) returns (shifts: seq<(Emotion, real)>)
      requires forall a, b :: 0 <= a < b < |es| ==> es[a] != es[b]
      ensures shifts == ShiftsOver(es, WordCount(table, inputLower))
    {
      shifts := [];
      for i := 0 to |es|
        invariant shifts == ShiftsUpTo(es, i, WordCount(table, inputLower))
      {
        assert Get(shifts, es[i]).None? by {
          ShiftsUpToOver(es, i, WordCount(table, inputLower));
          ShiftsOverAbsent(es, WordCount(table, inputLower), i);
        }
        shifts := ShiftEmotion(shifts, es[i], table(es[i]), inputLower);
      }
      ShiftsUpToOver(es, |es|, WordCount(table, inputLower));
      assert es[..|es|] == es;
    }

    /** The inner loop: 0.3 more for `e` per word of its `triggers` found, starting from no entry. */
    static method ShiftEmotion(before: seq<(Emotion, real)>, e: Emotion, triggers: seq<string>, inputLower: string)
      returns (shifts: seq<(Emotion, real)>)
      requires Get(before, e).None?
      ensures shifts == before + Entry(e, Found(triggers, inputLower), 0.3 * Found(triggers, inputLower) as real)
    {
      shifts := before;
      for j := 0 to |triggers|
        invariant shifts == before + Entry(e, Found(triggers[..j], inputLower), 0.3 * Found(triggers[..j], inputLower) as real)
      {
        assert triggers[..j + 1][..j] == triggers[..j];
        if Contains(inputLower, triggers[j]) {
          EntryStep(before, e, Found(triggers[..j], inputLower));
          shifts := Put(shifts, e, GetOr(shifts, e, 0.0) + 0.3);
        }
      }
      assert triggers[..|triggers|] == triggers;
    }

    /**
     * `_learn_from_interaction(userInput)` at clock reading `now`: when learning is enabled and an
     * indicator phrase occurs, the whole input is appended as a fact of confidence 0.8, once.
     */
    method LearnFromInteraction(userInput: string, now: int)
      modifies this`learnedFacts
      ensures learnedFacts == old(learnedFacts)
        + (if LearningEnabled(config.config) && StatesFact(userInput) then [LearnedFact(userInput, now, 0.8)] else [])
    {
      var enabled := config.Get(LearningEnabledKey, Bool(true));
      if !Truthy(enabled) {
        return;
      }
      var stated := MentionsIndicator(Lower(userInput));
      if stated {
        learnedFacts := learnedFacts + [LearnedFact(userInput, now, 0.8)];
      }
    }

    /** The indicator loop of `_learn_from_interaction`: stops at the first phrase found. */
    static method MentionsIndicator(inputLower: string) returns (found: bool)
      ensures found <==> AnyOccurs(inputLower, FactIndicators)
    {
      var i := 0;
      while i < |FactIndicators|
        invariant 0 <= i <= |FactIndicators|
        invariant !AnyOccurs(inputLower, FactIndicators[..i])
      {
        assert FactIndicators[..i + 1] == FactIndicators[..i] + [FactIndicators[i]];
        AnyOccursSnoc(inputLower, FactIndicators[..i], FactIndicators[i]);
        if Contains(inputLower, FactIndicators[i]) {
          return true;
        }
        i := i + 1;
      }
      assert FactIndicators[..i] == FactIndicators;
      return false;
    }

    /**
     * `_update_personality`: when learning is enabled and both sides asked a question, curiosity
     * grows by the configured rate times 0.1, capped at 1.0. `ok` is false when the configured
     * rate is not a number, where the multiplication raises and nothing changes.
     */
    method UpdatePersonality(userInput: string, aiResponse: string) returns (ok: bool)
      modifies this`personality
      ensures var rate := AsNumber(AdaptationRate(config.config));
        var adapts := LearningEnabled(config.config) && BothAsk(userInput, aiResponse);
        && (ok <==> !(adapts && rate.None?))
        && personality == if adapts && rate.Some? then Adapted(old(personality), rate.value) else old(personality)
    {
      var enabled := config.Get(LearningEnabledKey, Bool(true));
      if !Truthy(enabled) {
        return true;
      }
      var rateValue := config.Get(AdaptationRateKey, Real(0.1));
      if Contains(userInput, "?") && Contains(aiResponse, "?") {
        var rate := AsNumber(rateValue);
        if rate.None? {
          return false;
        }
        personality := Put(personality, "curious", Cap(GetOr(personality, "curious", 0.7) + rate.value * 0.1));
      }
      return true;
    }

    /** The history update of `process_message` after a reply: both turns appended, the last 20 kept. */
    method RecordExchange(userInput: string, response: string)
      modifies this`conversationHistory
      ensures conversationHistory ==
        Newest(old(conversationHistory) + [ChatMessage("user", userInput), ChatMessage("assistant", response)], 20)
    {
      conversationHistory := conversationHistory + [ChatMessage("user", userInput), ChatMessage("assistant", response)];
      if |conversationHistory| > 20 {
        conversationHistory := conversationHistory[|conversationHistory| - 20..];
      }
    }

    /**
     * `_prepare_enhanced_context(userInput)`: the conversations among the three newest records,
     * the engine index's two best hits (`hits`, none without an index or when its search fails)
     * and the last three facts, one per line.
     */
    method PrepareEnhancedContext(userInput: string) returns (r: string, ghost hits: seq<VectorDb.VectorRecord>)
      ensures r == Join("\n", ContextParts(memory.store.GetRecentMemories(3), hits, learnedFacts))
      ensures vectorMemory == null ==> hits == []
      ensures vectorMemory != null ==> |hits| <= 2 && forall h :: h in hits ==> h in vectorMemory.memories
      ensures vectorMemory != null && VectorDb.Mismatched(vectorMemory.memories) ==> hits == []
      ensures vectorMemory != null && vectorMemory.memories != [] && !VectorDb.Mismatched(vectorMemory.memories) ==>
        exists qe :: VectorDb.IsEmbeddingOf(qe, userInput)
          && hits == VectorDb.SemanticRanking(vectorMemory.memories, qe, 2, [], vectorMemory.ratio)
    {
      var recent := memory.store.GetRecentMemories(3);
      var conversations := ConversationLines(recent);
      hits := [];
      var relevant: seq<string> := [];
      if vectorMemory != null {
        var found := vectorMemory.SemanticSearch(userInput, 2, []);
        hits := found;
        relevant := RelevantLines(found);
      }
      var known: seq<string> := [];
      if learnedFacts != [] {
        known := FactLines(PySliceFrom(learnedFacts, -3));
      }
      r := Join("\n", conversations + relevant + known);
    }

    /** The content of each conversation record, in order. */
    static method ConversationLines(recent: seq<Memories.Memory>) returns (lines: seq<string>)
      ensures lines == ConversationParts(recent)
    {
      lines := [];
      for i := 0 to |recent|
        invariant lines == ConversationParts(recent[..i])
      {
        assert recent[..i + 1][..i] == recent[..i];
        if recent[i].memoryType == "conversation" {
          lines := lines + [recent[i].content];
        }
      }
      assert recent[..|recent|] == recent;
    }

    /** One "Relevant memory" line per hit. */
    static method RelevantLines(hits: seq<VectorDb.VectorRecord>) returns (lines: seq<string>)
      ensures lines == RelevantParts(hits)
    {
      lines := [];
      for i := 0 to |hits|
        invariant lines == RelevantParts(hits[..i])
      {
        lines := lines + ["Relevant memory: " + hits[i].content];
      }
      assert hits[..|hits|] == hits;
    }

    /** One "Known fact" line per fact. */
    static method FactLines(facts: seq<LearnedFact>) returns (lines: seq<string>)
      ensures lines == FactParts(facts)
    {
      lines := [];
      for i := 0 to |facts|
        invariant lines == FactParts(facts[..i])
      {
        lines := lines + ["Known fact: " + facts[i].fact];
      }
      assert facts[..|facts|] == facts;
    }

    /** `_update_integration_states`: each integration is active when its plugin is loaded. */
    method UpdateIntegrationStates(loaded: seq<string>)
      modifies this`integrations
      ensures integrations == Integrations("discord_bot" in loaded, "vtube_studio" in loaded, "piper_tts" in loaded)
    {
      integrations := Integrations("discord_bot" in loaded, "vtube_studio" in loaded, "piper_tts" in loaded);
    }

    /** `get_emotional_analysis(text)` */
    method GetEmotionalAnalysis(text: string) returns (r: seq<(Emotion, real)>)
      ensures r == Analysis(text)
    {
      var textLower := Lower(text);
      var count := FoundIn(textLower);
      r := [];
      for i := 0 to |EmotionalTriggers|
        invariant r == AnalysisOver(EmotionalTriggers[..i], count)
      {
        var (e, triggers) := EmotionalTriggers[i];
        var score: real := 0.0;
        for j := 0 to |triggers|
          invariant score == 0.1 * Found(triggers[..j], textLower) as real
        {
          assert triggers[..j + 1][..j] == triggers[..j];
          if Contains(textLower, triggers[j]) {
            score := score + 0.1;
          }
        }
        assert triggers[..|triggers|] == triggers;
        assert EmotionalTriggers[..i + 1][..i] == EmotionalTriggers[..i];
        if score > 0.0 {
          r := Put(r, e, Cap(score));
        }
      }
      assert EmotionalTriggers[..|EmotionalTriggers|] == EmotionalTriggers;
    }
  }
}
