/** The character sheet (character/character_manager.py): dotted lookup, prompt templating, validation. */
module Character {
  import opened Text
  import opened Collections
  import opened Settings

  /** What reading the character file produced (an empty YAML file loads as `Null`). */
  datatype LoadOutcome = Missing | Loaded(contents: Value) | Unreadable

  const RequiredFields: seq<string> := ["name", "personality", "traits"]

  /** `get('character.<field>', default)`, on the path it names. */
  function Field(data: Value, field: string, default: Value): Value {
    ResolvePath(data, ["character", field], default)
  }

  /** `get_name`, `get_personality`, `get_traits`, with their fallbacks. */
  function Name(data: Value): Value { Field(data, "name", Str("AI Companion")) }
  function Personality(data: Value): Value { Field(data, "personality", Str("")) }
  function Traits(data: Value): Value { Field(data, "traits", List([])) }
  function Behavior(data: Value): Value { Field(data, "behavior", Str("")) }
  function BasePrompt(data: Value): Value { Field(data, "system_prompt", Str("")) }

  /** `character.<field>` names the path `["character", field]`. */
  lemma CharacterKey(field: string)
    requires '.' !in field
    ensures SplitOn("character." + field, ".") == ["character", field]
  {
    assert '.' !in "character";
    assert "character." + field == "character" + "." + field;
    DottedPair("character", field);
  }

  /** The dotted lookup of `character.<field>` is `Field`: the section's entry, or the default. */
  lemma ResolveCharacterField(data: Value, field: string, default: Value)
    requires '.' !in field
    ensures Resolve(data, "character." + field, default) == Field(data, field, default)
    ensures Field(data, field, default) ==
      if data.Dict? && "character" in data.entries && data.entries["character"].Dict?
         && field in data.entries["character"].entries
      then data.entries["character"].entries[field] else default
  {
    CharacterKey(field);
    GetPair(data, "character", field);
  }

  /** A character whose section lacks the three fields gets the documented fallbacks. */
  lemma Fallbacks(data: Value)
    requires data.Dict? && "character" in data.entries && data.entries["character"].Dict?
    requires var section := data.entries["character"].entries;
      "name" !in section && "personality" !in section && "traits" !in section
    ensures Name(data) == Str("AI Companion")
    ensures Personality(data) == Str("")
    ensures Traits(data) == List([])
  {
    ResolveCharacterField(data, "name", Str("AI Companion"));
    ResolveCharacterField(data, "personality", Str(""));
    ResolveCharacterField(data, "traits", List([]));
  }

  /** The placeholders of `get_system_prompt`, in the order the replacements dict lists them. */
  const Placeholders: seq<string> := ["{name}", "{personality}", "{traits}", "{behavior}", "{emotional_context}"]

  function AsText(v: Value): Option<string> {
    if v.Str? then Some(v.s) else None
  }

  /** The strings of a list whose items are all strings. */
  function StrItems(items: seq<Value>): (r: Option<seq<string>>)
    ensures r.Some? <==> forall i :: 0 <= i < |items| ==> items[i].Str?
    ensures r.Some? ==> |r.value| == |items| && forall i :: 0 <= i < |items| ==> r.value[i] == items[i].s
  {
    if items == [] then Some([])
    else if !items[0].Str? then None
    else
      match StrItems(items[1..])
      case None => None
      case Some(rest) => Some([items[0].s] + rest)
  }

  /** A string iterated by `join`: one one-character string per character. */
  function Chars(s: string): (r: seq<string>)
    ensures |r| == |s| && forall i :: 0 <= i < |s| ==> r[i] == [s[i]]
  {
    seq(|s|, i requires 0 <= i < |s| => [s[i]])
  }

  /** `order` lists every key of `keys` once: one order in which a dict's keys can be iterated. */
  ghost predicate KeyOrder(order: seq<string>, keys: set<string>) {
    && (forall k :: k in order <==> k in keys)
    && (forall i, j :: 0 <= i < j < |order| ==> order[i] != order[j])
  }

  /**
   * `keyOrder` is the order in which iterating the traits yields their keys when they are a dict
   * (Python's insertion order, which `Value` does not record); for other traits it is unused.
   */
  ghost predicate TraitOrder(data: Value, keyOrder: seq<string>) {
    Traits(data).Dict? ==> KeyOrder(keyOrder, Traits(data).entries.Keys)
  }

  /**
   * `', '.join(traits)`: a list of strings, a string (whose characters are joined) or a dict
   * (whose keys are joined, in `keyOrder`); a list holding a non-string, or any other value,
   * raises TypeError (None).
   */
  function JoinTraits(traits: Value, keyOrder: seq<string>): Option<string>
    requires traits.Dict? ==> KeyOrder(keyOrder, traits.entries.Keys)
  {
    match traits
    case List(items) =>
      (match StrItems(items)
       case Some(words) => Some(Join(", ", words))
       case None => None)
    case Str(s) => Some(Join(", ", Chars(s)))
    case Dict(_) => Some(Join(", ", keyOrder))
    case _ => None
  }

  /** Joining a dict of traits joins its keys as a list of those keys, in iteration order, would. */
  lemma DictJoinsKeys(m: map<string, Value>, keyOrder: seq<string>)
    requires KeyOrder(keyOrder, m.Keys)
    ensures JoinTraits(Dict(m), keyOrder) == JoinTraits(List(seq(|keyOrder|, i requires 0 <= i < |keyOrder| => Str(keyOrder[i]))), [])
  {
    var items := seq(|keyOrder|, i requires 0 <= i < |keyOrder| => Str(keyOrder[i]));
    var words := StrItems(items);
    assert words.Some?;
    assert words.value == keyOrder;
  }

  /** `emotional_context or "neutral"` */
  function ContextOrNeutral(emotionalContext: string): string {
    if emotionalContext == "" then "neutral" else emotionalContext
  }

  /**
   * The replacements dict, in order; None when a value is not a string, for which `replace`
   * raises TypeError.
   */
  function Replacements(data: Value, emotionalContext: string, keyOrder: seq<string>): (r: Option<seq<(string, string)>>)
    requires TraitOrder(data, keyOrder)
  {
    var name := AsText(Name(data));
    var personality := AsText(Personality(data));
    var traits := JoinTraits(Traits(data), keyOrder);
    var behavior := AsText(Behavior(data));
    if name.None? || personality.None? || traits.None? || behavior.None? then None
    else Some([("{name}", name.value), ("{personality}", personality.value), ("{traits}", traits.value),
               ("{behavior}", behavior.value), ("{emotional_context}", ContextOrNeutral(emotionalContext))])
  }

  /** The replacements are the five placeholders in order, the last one filled with the context. */
  lemma ReplacementsShape(data: Value, emotionalContext: string, keyOrder: seq<string>)
    requires TraitOrder(data, keyOrder)
    requires Replacements(data, emotionalContext, keyOrder).Some?
    ensures var pairs := Replacements(data, emotionalContext, keyOrder).value;
      |pairs| == 5 && (forall i :: 0 <= i < 5 ==> pairs[i].0 == Placeholders[i])
      && pairs[4].1 == ContextOrNeutral(emotionalContext)
  {
  }

  ghost predicate Patterns(pairs: seq<(string, string)>) {
    forall i :: 0 <= i < |pairs| ==> pairs[i].0 != []
  }

  /** One `replace` per pair, in order, each on the result of the previous one. */
  function Substitute(s: string, pairs: seq<(string, string)>): string
    requires Patterns(pairs)
    decreases |pairs|
  {
    if pairs == [] then s else Substitute(Replace(s, pairs[0].0, pairs[0].1), pairs[1..])
  }

  /** The loop of `get_system_prompt`: `system_prompt = system_prompt.replace(placeholder, value)` per pair. */
  method ReplaceEach(s: string, pairs: seq<(string, string)>) returns (r: string)
    requires Patterns(pairs)
    ensures r == Substitute(s, pairs)
  {
    r := s;
    for i := 0 to |pairs|
      invariant Substitute(s, pairs) == Substitute(r, pairs[i..])
    {
      assert pairs[i..][1..] == pairs[i + 1..];
      r := Replace(r, pairs[i].0, pairs[i].1);
    }
    assert pairs[|pairs|..] == [];
  }

  /** `get_system_prompt`; None where Python raises (a prompt or a value that is not a string). */
  function SystemPrompt(data: Value, emotionalContext: string, keyOrder: seq<string>): Option<string>
    requires TraitOrder(data, keyOrder)
  {
    var base := BasePrompt(data);
    match Replacements(data, emotionalContext, keyOrder)
    case Some(pairs) => if base.Str? then Some(Substitute(base.s, pairs)) else None
    case None => None
  }

  /** A text in which no pattern occurs goes through the substitutions unchanged. */
  lemma {:induction false} SubstituteAbsent(s: string, pairs: seq<(string, string)>)
    requires Patterns(pairs)
    requires forall i :: 0 <= i < |pairs| ==> !Contains(s, pairs[i].0)
    ensures Substitute(s, pairs) == s
  {
    if pairs != [] {
      ReplaceAbsent(s, pairs[0].0, pairs[0].1);
      SubstituteAbsent(s, pairs[1..]);
    }
  }

  /** A base prompt holding none of the five placeholders is returned unchanged. */
  lemma PromptWithoutPlaceholders(data: Value, emotionalContext: string, keyOrder: seq<string>)
    requires TraitOrder(data, keyOrder)
    requires BasePrompt(data).Str?
    requires Replacements(data, emotionalContext, keyOrder).Some?
    requires forall p :: p in Placeholders ==> !Contains(BasePrompt(data).s, p)
    ensures SystemPrompt(data, emotionalContext, keyOrder) == Some(BasePrompt(data).s)
  {
    var pairs := Replacements(data, emotionalContext, keyOrder).value;
    var base := BasePrompt(data).s;
    forall i | 0 <= i < |pairs| ensures !Contains(base, pairs[i].0) {
      assert pairs[i].0 == Placeholders[i];
    }
    SubstituteAbsent(base, pairs);
  }

  /** Three string traits are joined with ", ". */
  lemma ThreeTraitsJoined(a: string, b: string, c: string)
    ensures JoinTraits(List([Str(a), Str(b), Str(c)]), []) == Some(a + ", " + b + ", " + c)
  {
    var r := StrItems([Str(a), Str(b), Str(c)]);
    assert r.Some?;
    assert r.value == [a, b, c];
    assert [a, b, c][1..] == [b, c] && [b, c][1..] == [c];
    assert Join(", ", [b, c]) == b + ", " + c;
    assert a + ", " + (b + ", " + c) == a + ", " + b + ", " + c;
  }

  /**
   * The leftmost `p` after the prefix `x` is filled, and the rest `mid + q` is kept: `p`'s first
   * character is not in `x` or `mid`, and `q` shows it only at its start, where it then differs
   * from `p` at the second character.
   */
  lemma ReplaceFirstOnly(x: string, p: string, mid: string, q: string, rep: string)
    requires |p| >= 2 && |q| >= |p| && p[0] !in x && p[0] !in mid && q[1] != p[1] && p[0] !in q[1..]
    ensures Replace(x + p + mid + q, p, rep) == x + rep + mid + q
  {
    var tail := mid + q;
    assert x + p + mid + q == x + p + tail;
    ReplaceAt(x, p, tail, rep);
    ReplaceAfterPrefix(mid, q, p, rep);
    ReplaceNearMiss(q, p, rep);
    assert x + rep + tail == x + rep + mid + q;
  }

  /** A text that starts like `p` but leaves it at the second character, and never shows `p[0]` again, is kept. */
  lemma ReplaceNearMiss(q: string, p: string, rep: string)
    requires |p| >= 2 && |q| >= |p| && q[1] != p[1] && p[0] !in q[1..]
    ensures Replace(q, p, rep) == q
  {
    assert q[..|p|][1] != p[1];
    assert q[..|p|] != p;
    ReplaceNoFirstChar(q[1..], p, rep);
    assert q == [q[0]] + q[1..];
  }

  /** A text without `{` goes through substitutions of `{`-led placeholders unchanged. */
  lemma {:induction false} SubstituteNoBrace(s: string, pairs: seq<(string, string)>)
    requires Patterns(pairs) && '{' !in s
    requires forall i :: 0 <= i < |pairs| ==> pairs[i].0[0] == '{'
    ensures Substitute(s, pairs) == s
  {
    if pairs != [] {
      ReplaceNoFirstChar(s, pairs[0].0, pairs[0].1);
      SubstituteNoBrace(s, pairs[1..]);
    }
  }

  lemma NoBraceConcat(name: string, personality: string)
    requires '{' !in name && '{' !in personality
    ensures '{' !in "You are " + name + ". " + personality
  {
  }

  /** Filling `{name}`, then `{personality}`, in "You are {name}. {personality}". */
  lemma FillNameThenPersonality(name: string, personality: string)
    requires '{' !in name
    ensures Replace(Replace("You are " + "{name}" + ". " + "{personality}", "{name}", name), "{personality}", personality)
         == "You are " + name + ". " + personality
  {
    ReplaceFirstOnly("You are ", "{name}", ". ", "{personality}", name);
    var prefix := "You are " + name + ". ";
    assert '{' !in prefix;
    ReplaceAt(prefix, "{personality}", "", personality);
    assert prefix + "{personality}" + "" == "You are " + name + ". " + "{personality}";
    assert prefix + personality + Replace("", "{personality}", personality) == "You are " + name + ". " + personality;
  }

  /** Every placeholder opens with `{`. */
  lemma PlaceholdersBraced(data: Value, emotionalContext: string, keyOrder: seq<string>)
    requires TraitOrder(data, keyOrder)
    requires Replacements(data, emotionalContext, keyOrder).Some?
    ensures var pairs := Replacements(data, emotionalContext, keyOrder).value;
      |pairs| == 5 && forall i :: 0 <= i < |pairs| ==> pairs[i].0 != [] && pairs[i].0[0] == '{'
  {
  }

  lemma {:induction false} SubstituteFirstTwo(s: string, pairs: seq<(string, string)>)
    requires Patterns(pairs) && |pairs| >= 2
    ensures Substitute(s, pairs)
         == Substitute(Replace(Replace(s, pairs[0].0, pairs[0].1), pairs[1].0, pairs[1].1), pairs[2..])
  {
    assert pairs[1..][0] == pairs[1] && pairs[1..][1..] == pairs[2..];
  }

  /**
   * A base prompt of the shape "You are {name}. {personality}" renders to the name and the
   * personality, provided neither brings in a placeholder of its own.
   */
  lemma NamePersonalityPrompt(data: Value, emotionalContext: string, keyOrder: seq<string>, name: string, personality: string)
    requires TraitOrder(data, keyOrder)
    requires Name(data) == Str(name) && Personality(data) == Str(personality)
    requires Replacements(data, emotionalContext, keyOrder).Some?
    requires BasePrompt(data) == Str("You are " + "{name}" + ". " + "{personality}")
    requires '{' !in name && '{' !in personality
    ensures SystemPrompt(data, emotionalContext, keyOrder) == Some("You are " + name + ". " + personality)
  {
    var pairs := Replacements(data, emotionalContext, keyOrder).value;
    assert pairs[0] == ("{name}", name) && pairs[1] == ("{personality}", personality);
    SubstituteFirstTwo(BasePrompt(data).s, pairs);
    FillNameThenPersonality(name, personality);
    PlaceholdersBraced(data, emotionalContext, keyOrder);
    NoBraceConcat(name, personality);
    SubstituteNoBrace("You are " + name + ". " + personality, pairs[2..]);
  }

  /** A pattern that meets `q` only at its start, and differs there at the second character, leaves it be. */
  lemma ReplaceMissAtStart(q: string, p: string, rep: string)
    requires |p| >= 2 && |q| >= |p| && q[1] != p[1] && p[0] !in q[1..]
    ensures Replace(q, p, rep) == q
  {
    assert q[..|p|][1] != p[1];
    ReplaceNoFirstChar(q[1..], p, rep);
    assert q == [q[0]] + q[1..];
  }

  /** Substituting `a` then `b` is substituting `a + b`. */
  lemma {:induction false} SubstituteAppend(s: string, a: seq<(string, string)>, b: seq<(string, string)>)
    requires Patterns(a) && Patterns(b)
    ensures Patterns(a + b)
    ensures Substitute(s, a + b) == Substitute(Substitute(s, a), b)
    decreases |a|
  {
    if a == [] {
      assert a + b == b;
    } else {
      assert (a + b)[0] == a[0] && (a + b)[1..] == a[1..] + b;
      SubstituteAppend(Replace(s, a[0].0, a[0].1), a[1..], b);
    }
  }

  /** Patterns that each meet `q` only at its start, and differ there, leave `q` be. */
  lemma {:induction false} SubstituteMisses(q: string, pairs: seq<(string, string)>)
    requires Patterns(pairs) && |q| >= 2
    requires forall i :: 0 <= i < |pairs| ==>
      2 <= |pairs[i].0| <= |q| && q[1] != pairs[i].0[1] && pairs[i].0[0] !in q[1..]
    ensures Substitute(q, pairs) == q
  {
    if pairs != [] {
      ReplaceMissAtStart(q, pairs[0].0, pairs[0].1);
      SubstituteMisses(q, pairs[1..]);
    }
  }

  /** When only the last pattern meets `q`, and is `q` itself, `q` becomes the last value. */
  lemma OnlyLastMatches(q: string, pairs: seq<(string, string)>)
    requires Patterns(pairs) && |pairs| == 5 && |q| >= 2 && pairs[4].0 == q
    requires forall i :: 0 <= i < 4 ==>
      2 <= |pairs[i].0| <= |q| && q[1] != pairs[i].0[1] && pairs[i].0[0] !in q[1..]
    ensures Substitute(q, pairs) == pairs[4].1
  {
    assert pairs == pairs[..4] + pairs[4..];
    SubstituteAppend(q, pairs[..4], pairs[4..]);
    SubstituteMisses(q, pairs[..4]);
    ReplaceAt("", q, "", pairs[4].1);
    assert "" + q + "" == q && "" + pairs[4].1 + Replace("", q, pairs[4].1) == pairs[4].1;
    assert pairs[4..][1..] == [];
  }

  /** The four placeholders before `{emotional_context}` open differently from it and are no longer. */
  lemma EarlierPlaceholders(data: Value, emotionalContext: string, keyOrder: seq<string>)
    requires TraitOrder(data, keyOrder)
    requires Replacements(data, emotionalContext, keyOrder).Some?
    ensures var pairs := Replacements(data, emotionalContext, keyOrder).value;
      pairs[4].0 == "{emotional_context}" &&
      forall i :: 0 <= i < 4 ==> 2 <= |pairs[i].0| <= 19 && pairs[i].0[1] != 'e' && pairs[i].0[0] == '{'
  {
  }

  /** A prompt made of `{emotional_context}` alone renders the context, or "neutral" for none. */
  lemma EmotionalContextPrompt(data: Value, emotionalContext: string, keyOrder: seq<string>)
    requires TraitOrder(data, keyOrder)
    requires Replacements(data, emotionalContext, keyOrder).Some?
    requires BasePrompt(data) == Str("{emotional_context}")
    ensures SystemPrompt(data, emotionalContext, keyOrder) == Some(ContextOrNeutral(emotionalContext))
    ensures emotionalContext == "" ==> SystemPrompt(data, emotionalContext, keyOrder) == Some("neutral")
  {
    var pairs := Replacements(data, emotionalContext, keyOrder).value;
    var q := "{emotional_context}";
    PlaceholdersBraced(data, emotionalContext, keyOrder);
    EarlierPlaceholders(data, emotionalContext, keyOrder);
    NotInByIndex(q[1..], '{');
    assert |q| == 19 && q[1] == 'e';
    OnlyLastMatches(q, pairs);
  }

  /**
   * The replacements run in order, each over the previous result: a name that itself holds
   * `{personality}` has it filled in by the next replacement.
   */
  lemma LaterPlaceholdersFillEarlierValues(data: Value, emotionalContext: string, keyOrder: seq<string>, personality: string)
    requires TraitOrder(data, keyOrder)
    requires Replacements(data, emotionalContext, keyOrder).Some?
    requires BasePrompt(data) == Str("{name}")
    requires Name(data) == Str("{personality}") && Personality(data) == Str(personality)
    requires '{' !in personality
    ensures SystemPrompt(data, emotionalContext, keyOrder) == Some(personality)
  {
    var pairs := Replacements(data, emotionalContext, keyOrder).value;
    PlaceholdersBraced(data, emotionalContext, keyOrder);
    ReplaceAt("", "{name}", "", "{personality}");
    assert "" + "{name}" + "" == "{name}" && "" + "{personality}" + Replace("", "{name}", "{personality}") == "{personality}";
    ReplaceAt("", "{personality}", "", personality);
    assert "" + "{personality}" + "" == "{personality}" && "" + personality + Replace("", "{personality}", personality) == personality;
    SubstituteFirstTwo("{name}", pairs);
    SubstituteNoBrace(personality, pairs[2..]);
  }

  /**
   * `validate_character`: `character_data.get('character', {})` needs a dict (anything else
   * raises, None); then the three fields are tested with `in` on the section.
   */
  function ValidateCharacter(data: Value): (r: Option<bool>)
    ensures !data.Dict? ==> r.None?
    ensures data.Dict? && "character" !in data.entries ==> r == Some(false)
    ensures data.Dict? && "character" in data.entries && data.entries["character"].Dict? ==>
      (r == Some(true) <==> (var section := data.entries["character"].entries;
                              "name" in section && "personality" in section && "traits" in section))
  {
    if !data.Dict? then None
    else AllIn(RequiredFields, if "character" in data.entries then data.entries["character"] else Dict(map[]))
  }
}
