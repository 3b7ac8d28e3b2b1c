/**
 * The template-based reply engine (ai_core/emotional_response.py): scoring the emotions of the
 * user's text from trigger words, intensity modifiers and punctuation, choosing a reply template,
 * flavouring the reply by the current intensity, and the bounded store of emotional contexts with
 * its summary of patterns.
 */
module EmotionalResponse {
  import opened Text
  import opened Collections
  import opened EmotionTypes
  import Engine

  // ---------------------------------------------------------------- scoring the user's text

  /** The words that strengthen a trigger when written right before it. */
  const IntensityModifiers: seq<string> := ["very", "really", "extremely", "so", "incredibly"]

  /** How many of the phrases `m + " " + w`, one per modifier `m` of `mods`, occur in `text`. */
  function ModifierHits(mods: seq<string>, w: string, text: string): (n: nat)
    ensures n <= |mods|
  {
    if mods == [] then 0
    else ModifierHits(mods[..|mods| - 1], w, text) + (if Contains(text, mods[|mods| - 1] + " " + w) then 1 else 0)
  }

  /**
   * `score` after the two loops for an emotion with the trigger words `triggers`: 0.2 per trigger
   * found, then 0.1 per modifier phrase built on `trigger`, the variable the first loop leaves
   * holding the last trigger of the list.
   */
  function TriggerScore(triggers: seq<string>, mods: seq<string>, text: string): real
    requires triggers != []
  {
    0.2 * Engine.Found(triggers, text) as real + 0.1 * ModifierHits(mods, triggers[|triggers| - 1], text) as real
  }

  /** Every emotion of the table has at least one trigger word. */
  predicate NonEmptyLists(table: seq<(Emotion, seq<string>)>) {
    forall i :: 0 <= i < |table| ==> table[i].1 != []
  }

  lemma TriggerListsNonEmpty()
    ensures NonEmptyLists(EmotionalTriggers)
  {
  }

  /**
   * The scores after the trigger loop has run over the entries `table` of `EMOTIONAL_TRIGGERS`:
   * an emotion whose score is positive is stored, capped at 1.0.
   */
  function TriggerScores(table: seq<(Emotion, seq<string>)>, mods: seq<string>, text: string): seq<(Emotion, real)>
    requires NonEmptyLists(table)
  {
    if table == [] then []
    else
      var prefix := TriggerScores(table[..|table| - 1], mods, text);
      var entry := table[|table| - 1];
      var score := TriggerScore(entry.1, mods, text);
      if score > 0.0 then Put(prefix, entry.0, Engine.Cap(score)) else prefix
  }

  /** The punctuation cues, added after the cap: "!" adds 0.3 to EXCITEMENT, then "?" 0.2 to CURIOSITY. */
  function WithPunctuation(scores: seq<(Emotion, real)>, text: string): seq<(Emotion, real)> {
    var excited := if '!' in text then Put(scores, Excitement, GetOr(scores, Excitement, 0.0) + 0.3) else scores;
    if '?' in text then Put(excited, Curiosity, GetOr(excited, Curiosity, 0.0) + 0.2) else excited
  }

  /** The scores `analyze_emotional_content(text)` returns. */
  function Analyze(text: string): seq<(Emotion, real)> {
    TriggerListsNonEmpty();
    WithPunctuation(TriggerScores(EmotionalTriggers, IntensityModifiers, Lower(text)), text)
  }

  /** A modifier phrase can only be found where the trigger it is built on is found too. */
  lemma {:induction false} ModifierNeedsTrigger(mods: seq<string>, w: string, text: string)
    requires ModifierHits(mods, w, text) > 0
    ensures Contains(text, w)
  {
    var m := mods[|mods| - 1];
    if Contains(text, m + " " + w) {
      assert m + " " + w == (m + " ") + w;
      ContainsTail(text, m + " ", w);
    } else {
      ModifierNeedsTrigger(mods[..|mods| - 1], w, text);
    }
  }

  /** The stored score of an emotion whose trigger words, if it has any, are `ts`. */
  function ScoreFor(ts: Option<seq<string>>, mods: seq<string>, text: string): Option<real> {
    if ts.Some? && ts.value != [] && TriggerScore(ts.value, mods, text) > 0.0
    then Some(Engine.Cap(TriggerScore(ts.value, mods, text)))
    else None
  }

  /** Over a table with distinct keys, each emotion's stored score is the capped score of its own words. */
  lemma {:induction false} TriggerScoresGet(table: seq<(Emotion, seq<string>)>, mods: seq<string>, text: string, e: Emotion)
    requires DistinctKeys(table) && NonEmptyLists(table)
    ensures Get(TriggerScores(table, mods, text), e) == ScoreFor(Get(table, e), mods, text)
  {
    if table != [] {
      var init := table[..|table| - 1];
      var last := table[|table| - 1];
      var prefix := TriggerScores(init, mods, text);
      assert table == init + [last];
      DistinctInit(table);
      TriggerScoresGet(init, mods, text, e);
      GetConcat(init, [last], e);
      if last.0 == e {
        assert Get(table, e) == Some(last.1);
        assert Get(prefix, e).None?;
      } else {
        assert Get(table, e) == Get(init, e);
        if TriggerScore(last.1, mods, text) > 0.0 {
          PutOther(prefix, last.0, Engine.Cap(TriggerScore(last.1, mods, text)), e);
        }
      }
    }
  }

  /**
   * An emotion with trigger words scores exactly when one of them occurs in the lowered text:
   * 0.2 per trigger found plus 0.1 per modifier written before its LAST trigger, capped at 1.0.
   * A modifier before any other trigger adds nothing.
   */
  lemma TriggerScoreMeaning(text: string, e: Emotion)
    requires HasTriggers(e)
    ensures var t := Lower(text);
      var n := Engine.Found(Triggers(e), t);
      var k := ModifierHits(IntensityModifiers, Triggers(e)[5], t);
      && Get(TriggerScores(EmotionalTriggers, IntensityModifiers, t), e) ==
           (if n > 0 then Some(Engine.Cap(0.2 * n as real + 0.1 * k as real)) else None)
      && (k > 0 ==> Contains(t, Triggers(e)[5]))
  {
    var t := Lower(text);
    var ts := Triggers(e);
    TriggerTable(e);
    TriggerListsNonEmpty();
    TriggerScoresGet(EmotionalTriggers, IntensityModifiers, t, e);
    var k := ModifierHits(IntensityModifiers, ts[5], t);
    if k > 0 {
      ModifierNeedsTrigger(IntensityModifiers, ts[5], t);
      Engine.FoundNone(ts, t);
    }
  }

  /** Emotions without trigger words get no score from the trigger loop. */
  lemma NoTriggersNoScore(text: string, e: Emotion)
    requires !HasTriggers(e)
    ensures Get(TriggerScores(EmotionalTriggers, IntensityModifiers, Lower(text)), e).None?
  {
    TriggerTable(e);
    TriggerListsNonEmpty();
    TriggerScoresGet(EmotionalTriggers, IntensityModifiers, Lower(text), e);
  }

  /**
   * The final scores: EXCITEMENT is 0.3 exactly when the text has "!", CURIOSITY gets 0.2 on top
   * of its capped trigger score when the text has "?", JOY, SADNESS and ANGER keep their trigger
   * scores, and the other five emotions never score.
   */
  lemma AnalyzeScores(text: string, e: Emotion)
    ensures var base := TriggerScores(EmotionalTriggers, IntensityModifiers, Lower(text));
      Get(Analyze(text), e) ==
        if e == Excitement then (if '!' in text then Some(0.3) else None)
        else if e == Curiosity && '?' in text then Some(GetOr(base, Curiosity, 0.0) + 0.2)
        else if HasTriggers(e) then Get(base, e)
        else None
  {
    TriggerListsNonEmpty();
    var base := TriggerScores(EmotionalTriggers, IntensityModifiers, Lower(text));
    NoTriggersNoScore(text, Excitement);
    var excited := if '!' in text then Put(base, Excitement, GetOr(base, Excitement, 0.0) + 0.3) else base;
    if '!' in text && e != Excitement {
      PutOther(base, Excitement, 0.3, e);
    }
    if '?' in text && e != Curiosity {
      PutOther(excited, Curiosity, GetOr(excited, Curiosity, 0.0) + 0.2, e);
    }
    if '?' in text && '!' in text {
      PutOther(base, Excitement, 0.3, Curiosity);
    }
    if !HasTriggers(e) {
      NoTriggersNoScore(text, e);
    }
  }

  /** Every score is positive and at most 1.2. */
  lemma ScoresBounded(text: string, e: Emotion)
    ensures Get(Analyze(text), e).Some? ==> 0.0 < Get(Analyze(text), e).value <= 1.2
  {
    AnalyzeScores(text, e);
    if e == Curiosity {
      TriggerScoreMeaning(text, Curiosity);
    } else if HasTriggers(e) {
      TriggerScoreMeaning(text, e);
    }
  }

  /** CURIOSITY reaches 1.2, above the 1.0 cap the triggers get, when five of its triggers occur in a question. */
  lemma CuriosityAboveCap(text: string)
    requires Engine.Found(Triggers(Curiosity), Lower(text)) >= 5 && '?' in text
    ensures Get(Analyze(text), Curiosity) == Some(1.2)
  {
    AnalyzeScores(text, Curiosity);
    TriggerScoreMeaning(text, Curiosity);
  }

  /** `analyze_emotional_content`'s inner loops for one emotion, keeping the loop variable. */
  method ScoreEmotion(triggers: seq<string>, mods: seq<string>, textLower: string) returns (score: real)
    requires triggers != []
    ensures score == TriggerScore(triggers, mods, textLower)
  {
    score := 0.0;
    var trigger := triggers[0];
    for j := 0 to |triggers|
      invariant score == 0.2 * Engine.Found(triggers[..j], textLower) as real
      invariant j > 0 ==> trigger == triggers[j - 1]
    {
      assert triggers[..j + 1][..j] == triggers[..j];
      trigger := triggers[j];
      if Contains(textLower, trigger) {
        score := score + 0.2;
      }
    }
    assert triggers[..|triggers|] == triggers;
    for k := 0 to |mods|
      invariant score == 0.2 * Engine.Found(triggers, textLower) as real + 0.1 * ModifierHits(mods[..k], trigger, textLower) as real
    {
      assert mods[..k + 1][..k] == mods[..k];
      if Contains(textLower, mods[k] + " " + trigger) {
        score := score + 0.1;
      }
    }
    assert mods[..|mods|] == mods;
  }

  /** `analyze_emotional_content`'s outer loop over the trigger table. */
  method ScoreTable(table: seq<(Emotion, seq<string>)>, mods: seq<string>, textLower: string)
    returns (scores: seq<(Emotion, real)>)
    requires NonEmptyLists(table)
    ensures scores == TriggerScores(table, mods, textLower)
  {
    scores := [];
    for i := 0 to |table|
      invariant NonEmptyLists(table[..i])
      invariant scores == TriggerScores(table[..i], mods, textLower)
    {
      assert table[..i + 1][..i] == table[..i];
      var (e, triggers) := table[i];
      var score := ScoreEmotion(triggers, mods, textLower);
      if score > 0.0 {
        scores := Put(scores, e, Engine.Cap(score));
      }
    }
    assert table[..|table|] == table;
  }

  // ---------------------------------------------------------------- choosing the reply

  /** `_load_response_templates()`: five replies for each of six emotions. */
  const ResponseTemplates: seq<(Emotion, seq<string>)> := [
    (Joy, ["That's wonderful! \U{1F60A}", "I'm so happy to hear that!", "That sounds amazing!",
           "What great news!", "This makes me smile! \U{1F604}"]),
    (Sadness, ["I'm sorry you're feeling this way. \U{1F494}", "That sounds really difficult.",
               "My heart goes out to you.", "I'm here for you.", "That must be really hard."]),
    (Anger, ["I understand why you'd feel that way.", "That sounds frustrating.",
             "I can sense your frustration.", "That would make anyone upset.", "I hear the anger in your voice."]),
    (Curiosity, ["That's fascinating! Tell me more.", "I'm really curious about that.",
                 "What an interesting thought!", "I'd love to learn more about that.", "That's got me thinking..."]),
    (Excitement, ["That's so exciting! \U{1F389}", "I'm getting excited just hearing about this!",
                  "Wow, that sounds incredible!", "This is thrilling!", "I can feel the excitement!"]),
    (Neutral, ["I understand.", "Thanks for sharing that.", "That's interesting.",
               "I see what you mean.", "Tell me more about that."])
  ]

  /** `self.response_templates.get(e, [])` */
  function Templates(e: Emotion): seq<string> {
    GetOr(ResponseTemplates, e, [])
  }

  predicate HasTemplates(e: Emotion) {
    e == Joy || e == Sadness || e == Anger || e == Curiosity || e == Excitement || e == Neutral
  }

  /** Exactly JOY, SADNESS, ANGER, CURIOSITY, EXCITEMENT and NEUTRAL have replies, five each. */
  lemma TemplatesCoverage(e: Emotion)
    ensures Templates(e) != [] <==> HasTemplates(e)
    ensures HasTemplates(e) ==> |Templates(e)| == 5
  {
  }

  /** The emotion whose templates `_get_base_response` draws from. */
  function Responder(primary: Emotion, input: seq<(Emotion, real)>): Emotion {
    if input != [] && input[Engine.FirstMax(input)].1 > 0.5 && Templates(input[Engine.FirstMax(input)].0) != []
    then input[Engine.FirstMax(input)].0
    else if Templates(primary) != [] then primary
    else Neutral
  }

  /**
   * The reply answers a strongest input emotion scoring above 0.5 when it has replies, else the
   * current primary emotion when it has replies, else NEUTRAL: with no input score above 0.5 the
   * input is ignored, an input emotion that beats all others above 0.5 is answered, and there is
   * always a reply to pick.
   */
  lemma ResponderChoice(primary: Emotion, input: seq<(Emotion, real)>)
    ensures Templates(Responder(primary, input)) != []
    ensures (forall i :: 0 <= i < |input| ==> input[i].1 <= 0.5) ==>
      Responder(primary, input) == if HasTemplates(primary) then primary else Neutral
    ensures forall i :: (0 <= i < |input| && input[i].1 > 0.5 && HasTemplates(input[i].0) &&
      (forall j :: 0 <= j < |input| && j != i ==> input[j].1 < input[i].1)) ==>
      Responder(primary, input) == input[i].0
    ensures var r := Responder(primary, input);
      r == primary || r == Neutral ||
      exists i :: 0 <= i < |input| && input[i].0 == r && input[i].1 > 0.5 &&
        forall j :: 0 <= j < |input| ==> input[j].1 <= input[i].1
  {
    TemplatesCoverage(primary);
    TemplatesCoverage(Neutral);
    if input != [] {
      var k := Engine.FirstMax(input);
      TemplatesCoverage(input[k].0);
      forall i | 0 <= i < |input| && input[i].1 > 0.5 && HasTemplates(input[i].0)
        && (forall j :: 0 <= j < |input| && j != i ==> input[j].1 < input[i].1)
        ensures Responder(primary, input) == input[i].0
      {
        TemplatesCoverage(input[i].0);
        assert input[i].1 <= input[k].1;
      }
    }
  }

  // ---------------------------------------------------------------- flavouring the reply

  const JoyMark: string := "! \U{1F604}"
  const ExcitementSuffix: string := " This is so exciting! \U{1F389}"
  const CuriositySuffix: string := " I'm absolutely fascinated!"

  /**
   * `_add_emotional_flavor`: above 0.7 JOY turns every "." into "! 😄" and EXCITEMENT and
   * CURIOSITY get a closing remark; the stronger markers for intensity above 0.9 sit in an `elif`
   * after the test for 0.7, so they are never reached.
   */
  function AddEmotionalFlavor(response: string, state: EmotionalState): string {
    if state.intensity > 0.7 then
      if state.primary == Joy then Replace(response, ".", JoyMark)
      else if state.primary == Excitement then response + ExcitementSuffix
      else if state.primary == Curiosity then response + CuriositySuffix
      else response
    else if state.intensity > 0.9 then
      if state.primary == Joy then "I'm absolutely overjoyed! " + response + " \U{1F973}"
      else if state.primary == Sadness then "My heart is truly aching... " + response + " \U{1F494}"
      else response
    else response
  }

  /**
   * The reply is unchanged up to intensity 0.7 and for every emotion but JOY, EXCITEMENT and
   * CURIOSITY (SADNESS included, whatever its intensity); a flavoured JOY reply has no "." left,
   * and the other two keep the reply as a prefix.
   */
  lemma FlavorOutcomes(response: string, state: EmotionalState)
    ensures var r := AddEmotionalFlavor(response, state);
      && (state.intensity <= 0.7 ==> r == response)
      && (state.primary != Joy && state.primary != Excitement && state.primary != Curiosity ==> r == response)
      && (state.intensity > 0.7 && state.primary == Joy ==> '.' !in r)
      && (state.intensity > 0.7 && state.primary == Excitement ==> r == response + ExcitementSuffix)
      && (state.intensity > 0.7 && state.primary == Curiosity ==> r == response + CuriositySuffix)
  {
    if state.intensity > 0.7 && state.primary == Joy {
      assert '.' !in JoyMark;
      ReplaceCharGone(response, '.', JoyMark);
    }
  }

  // ---------------------------------------------------------------- the store of emotional contexts

  /** One entry of `emotional_memory`. */
  datatype EmotionalContext = EmotionalContext(
    timestamp: int,
    userInput: string,
    aiResponse: string,
    aiEmotion: EmotionalState,
    userEmotion: seq<(Emotion, real)>)

  const MemoryLimit: nat := 100

  /** The values of the primary emotions of the stored contexts, in order. */
  function PrimaryValues(contexts: seq<EmotionalContext>): (r: seq<string>)
    ensures |r| == |contexts|
  {
    if contexts == [] then []
    else PrimaryValues(contexts[..|contexts| - 1]) + [Value(contexts[|contexts| - 1].aiEmotion.primary)]
  }

  /** Index of the item `max(d.items(), key=lambda x: x[1])` returns: the first largest count. */
  function MostCommonIndex(d: seq<(string, nat)>): (k: nat)
    requires d != []
    ensures k < |d|
    ensures forall j :: 0 <= j < |d| ==> d[j].1 <= d[k].1
    ensures forall j :: 0 <= j < k ==> d[j].1 < d[k].1
  {
    if |d| == 1 then 0
    else
      var k := MostCommonIndex(d[..|d| - 1]);
      if d[|d| - 1].1 > d[k].1 then |d| - 1 else k
  }

  /** `get_emotional_patterns()`: nothing for an empty store. */
  datatype Patterns =
    | NoPatterns
    | Patterns(total: nat, distribution: seq<(string, nat)>, mostCommon: string)

  /** The patterns of a store holding `contexts`. */
  function PatternsOf(contexts: seq<EmotionalContext>): Patterns {
    if contexts == [] then NoPatterns
    else
      var counts := Tally(PrimaryValues(contexts));
      Patterns(|contexts|, counts, if counts != [] then counts[MostCommonIndex(counts)].0 else "neutral")
  }

  /**
   * The distribution counts, for each emotion value, the contexts whose AI emotion had it; the
   * counts add up to the number of contexts; the most common value is one that occurs, and none
   * occurs more often.
   */
  lemma PatternsMeaning(contexts: seq<EmotionalContext>)
    requires contexts != []
    ensures var p := PatternsOf(contexts);
      && p.Patterns?
      && p.total == |contexts|
      && SumCounts(p.distribution) == p.total
      && (forall v :: GetOr(p.distribution, v, 0) == multiset(PrimaryValues(contexts))[v])
      && p.mostCommon in PrimaryValues(contexts)
      && (forall v :: multiset(PrimaryValues(contexts))[v] <= multiset(PrimaryValues(contexts))[p.mostCommon])
  {
    var vs := PrimaryValues(contexts);
    var counts := Tally(vs);
    TallySum(vs);
    assert counts != [];
    var k := MostCommonIndex(counts);
    var top := counts[k].0;
    GetOfMember(counts, k);
    TallyCount(vs, top);
    forall v ensures GetOr(counts, v, 0) == multiset(vs)[v] {
      TallyCount(vs, v);
    }
    forall v ensures multiset(vs)[v] <= multiset(vs)[top] {
      TallyCount(vs, v);
      if Get(counts, v).Some? {
        GetIn(counts, v);
        var j :| 0 <= j < |counts| && counts[j] == (v, Get(counts, v).value);
      }
    }
  }

  /** Counting the context at index `i` extends the tally of the ones before it. */
  lemma CountStep(contexts: seq<EmotionalContext>, i: nat)
    requires i < |contexts|
    ensures Tally(PrimaryValues(contexts[..i + 1])) ==
      Put(Tally(PrimaryValues(contexts[..i])), Value(contexts[i].aiEmotion.primary),
          GetOr(Tally(PrimaryValues(contexts[..i])), Value(contexts[i].aiEmotion.primary), 0) + 1)
  {
    var v := Value(contexts[i].aiEmotion.primary);
    var before := PrimaryValues(contexts[..i]);
    assert contexts[..i + 1][..i] == contexts[..i];
    TallySnoc(before, v);
  }

  class EmotionalResponseEngine {
    /** `emotional_memory`, oldest first. */
    var emotionalMemory: seq<EmotionalContext>

    constructor ()
      ensures emotionalMemory == []
    {
      emotionalMemory := [];
    }

    /** `analyze_emotional_content(text)` */
    method AnalyzeEmotionalContent(text: string) returns (scores: seq<(Emotion, real)>)
      ensures scores == Analyze(text)
    {
      TriggerListsNonEmpty();
      scores := ScoreTable(EmotionalTriggers, IntensityModifiers, Lower(text));
      if '!' in text {
        scores := Put(scores, Excitement, GetOr(scores, Excitement, 0.0) + 0.3);
      }
      if '?' in text {
        scores := Put(scores, Curiosity, GetOr(scores, Curiosity, 0.0) + 0.2);
      }
    }

    /** `_get_base_response`: some reply of the emotion `Responder` picks, as `random.choice` does. */
    method GetBaseResponse(current: EmotionalState, input: seq<(Emotion, real)>) returns (r: string)
      ensures r in Templates(Responder(current.primary, input))
    {
      if input != [] {
        var k := Engine.FirstMax(input);
        if input[k].1 > 0.5 {
          var templates := Templates(input[k].0);
          if templates != [] {
            assert templates[0] in templates;
            r :| r in templates;
            return;
          }
        }
      }
      var templates := Templates(current.primary);
      if templates != [] {
        assert templates[0] in templates;
        r :| r in templates;
        return;
      }
      TemplatesCoverage(Neutral);
      assert Templates(Neutral)[0] in Templates(Neutral);
      r :| r in Templates(Neutral);
    }

    /** `_store_emotional_context`: appends the context and keeps the newest 100. */
    method StoreEmotionalContext(context: EmotionalContext)
      modifies this
      ensures emotionalMemory == Newest(old(emotionalMemory) + [context], MemoryLimit)
      ensures |emotionalMemory| <= MemoryLimit && emotionalMemory[|emotionalMemory| - 1] == context
    {
      emotionalMemory := emotionalMemory + [context];
      if |emotionalMemory| > MemoryLimit {
        emotionalMemory := emotionalMemory[|emotionalMemory| - MemoryLimit..];
      }
    }

    /**
     * `generate_emotional_response` at clock reading `now`: a reply of the chosen emotion,
     * flavoured by the current state, recorded with both emotions in the store.
     */
    method GenerateEmotionalResponse(userInput: string, state: EmotionalState, now: int) returns (r: string)
      modifies this
      ensures exists base :: (base in Templates(Responder(state.primary, Analyze(userInput))) &&
        r == AddEmotionalFlavor(base, state))
      ensures emotionalMemory ==
        Newest(old(emotionalMemory) + [EmotionalContext(now, userInput, r, state, Analyze(userInput))], MemoryLimit)
    {
      var inputEmotion := AnalyzeEmotionalContent(userInput);
      var base := GetBaseResponse(state, inputEmotion);
      r := AddEmotionalFlavor(base, state);
      StoreEmotionalContext(EmotionalContext(now, userInput, r, state, inputEmotion));
    }

    /** `get_emotional_patterns()` */
    method GetEmotionalPatterns() returns (p: Patterns)
      ensures p == PatternsOf(emotionalMemory)
    {
      if emotionalMemory == [] {
        return NoPatterns;
      }
      var counts := CountEmotions(emotionalMemory);
      var mostCommon := if counts != [] then counts[MostCommonIndex(counts)].0 else "neutral";
      p := Patterns(|emotionalMemory|, counts, mostCommon);
    }

    /** The loop of `get_emotional_patterns` that counts the AI emotions. */
    static method CountEmotions(contexts: seq<EmotionalContext>) returns (counts: seq<(string, nat)>)
      ensures counts == Tally(PrimaryValues(contexts))
    {
      counts := [];
      for i := 0 to |contexts|
        invariant counts == Tally(PrimaryValues(contexts[..i]))
      {
        var v := Value(contexts[i].aiEmotion.primary);
        CountStep(contexts, i);
        counts := Put(counts, v, GetOr(counts, v, 0) + 1);
      }
      assert contexts[..|contexts|] == contexts;
    }
  }
}
