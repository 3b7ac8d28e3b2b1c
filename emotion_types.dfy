/**
 * The emotion vocabulary (ai_core/emotion_types.py): the ten emotions, the trigger words of
 * four of them and the default replies of four of them.
 */
module EmotionTypes {
  import opened Collections

  datatype Emotion = Joy | Sadness | Anger | Fear | Surprise | Disgust | Curiosity | Excitement | Contentment | Neutral

  /** The members in declaration order, the order in which the enum is iterated. */
  const AllEmotions: seq<Emotion> := [Joy, Sadness, Anger, Fear, Surprise, Disgust, Curiosity, Excitement, Contentment, Neutral]

  /** Every emotion is listed exactly once. */
  lemma AllEmotionsComplete()
    ensures forall e: Emotion :: e in AllEmotions
    ensures |AllEmotions| == 10
    ensures forall i, j :: 0 <= i < j < |AllEmotions| ==> AllEmotions[i] != AllEmotions[j]
  {
    forall e: Emotion ensures e in AllEmotions {
      match e
      case Joy => assert AllEmotions[0] == e;
      case Sadness => assert AllEmotions[1] == e;
      case Anger => assert AllEmotions[2] == e;
      case Fear => assert AllEmotions[3] == e;
      case Surprise => assert AllEmotions[4] == e;
      case Disgust => assert AllEmotions[5] == e;
      case Curiosity => assert AllEmotions[6] == e;
      case Excitement => assert AllEmotions[7] == e;
      case Contentment => assert AllEmotions[8] == e;
      case Neutral => assert AllEmotions[9] == e;
    }
  }

  /** The enum's string value. */
  function Value(e: Emotion): (v: string)
    ensures v != ""
    ensures forall i :: 0 <= i < |v| ==> 'a' <= v[i] <= 'z'
  {
    match e
    case Joy => "joy"
    case Sadness => "sadness"
    case Anger => "anger"
    case Fear => "fear"
    case Surprise => "surprise"
    case Disgust => "disgust"
    case Curiosity => "curiosity"
    case Excitement => "excitement"
    case Contentment => "contentment"
    case Neutral => "neutral"
  }

  /** No two members share a value, so a value names its member. */
  lemma ValuesDistinct(a: Emotion, b: Emotion)
    requires Value(a) == Value(b)
    ensures a == b
  {
    assert Value(a)[0] == Value(b)[0] && |Value(a)| == |Value(b)|;
  }

  /** `EmotionType(v)`: the member whose value is `v`, if any. */
  function FromValue(v: string): (r: Option<Emotion>)
    ensures r.Some? ==> Value(r.value) == v
    ensures r.None? ==> forall e :: Value(e) != v
  {
    if v == "joy" then Some(Joy)
    else if v == "sadness" then Some(Sadness)
    else if v == "anger" then Some(Anger)
    else if v == "fear" then Some(Fear)
    else if v == "surprise" then Some(Surprise)
    else if v == "disgust" then Some(Disgust)
    else if v == "curiosity" then Some(Curiosity)
    else if v == "excitement" then Some(Excitement)
    else if v == "contentment" then Some(Contentment)
    else if v == "neutral" then Some(Neutral)
    else None
  }

  /** `EMOTIONAL_TRIGGERS`, in its dictionary order. */
  const EmotionalTriggers: seq<(Emotion, seq<string>)> := [
    (Joy, ["happy", "great", "wonderful", "amazing", "love", "excited"]),
    (Sadness, ["sad", "hurt", "miss", "lost", "sorry", "unhappy"]),
    (Anger, ["angry", "mad", "frustrated", "annoyed", "hate", "upset"]),
    (Curiosity, ["wonder", "curious", "question", "why", "how", "learn"])
  ]

  predicate HasTriggers(e: Emotion) {
    e == Joy || e == Sadness || e == Anger || e == Curiosity
  }

  /** `EMOTIONAL_TRIGGERS.get(e, [])` */
  function Triggers(e: Emotion): (ts: seq<string>)
    ensures HasTriggers(e) ==> |ts| == 6
    ensures !HasTriggers(e) ==> ts == []
  {
    GetOr(EmotionalTriggers, e, [])
  }

  /** The trigger table names each emotion at most once, and exactly the emotions with triggers. */
  lemma TriggerTable(e: Emotion)
    ensures DistinctKeys(EmotionalTriggers)
    ensures Get(EmotionalTriggers, e) == if HasTriggers(e) then Some(Triggers(e)) else None
  {
  }

  /** EXCITEMENT has no trigger words, although "excited" is one of JOY's. */
  lemma ExcitedIsJoy()
    ensures Triggers(Excitement) == []
    ensures "excited" in Triggers(Joy)
  {
  }

  /** `DEFAULT_EMOTIONAL_RESPONSES` */
  const DefaultEmotionalResponses: seq<(Emotion, string)> := [
    (Joy, "I'm really happy to hear that!"),
    (Sadness, "I'm sorry you're feeling that way. I'm here for you."),
    (Curiosity, "That's really interesting! Tell me more about that."),
    (Neutral, "I understand. Thanks for sharing that with me.")
  ]

  /** The default reply of an emotion: only JOY, SADNESS, CURIOSITY and NEUTRAL have one. */
  function DefaultResponse(e: Emotion): (r: Option<string>)
    ensures r.Some? <==> e == Joy || e == Sadness || e == Curiosity || e == Neutral
  {
    Get(DefaultEmotionalResponses, e)
  }

  /** `EmotionalState`; `intensity` is meant to stay within 0.0 .. 1.0. */
  datatype EmotionalState = EmotionalState(
    primary: Emotion,
    intensity: real,
    secondary: seq<(Emotion, real)>,
    timestamp: int)

  predicate IntensityInRange(s: EmotionalState) {
    0.0 <= s.intensity <= 1.0
  }
}
