/**
 * The character manager of character/character_manager.py: the sheet it holds, the default
 * sheet a missing or unreadable file falls back to, and what that default renders.
 */
module CharacterSheet {
  import opened Text
  import opened Collections
  import opened Settings
  import opened Character

  /** `get_default_character` */
  const DefaultCharacter: Value := Dict(map[
    "character" := Dict(map[
      "name" := Str("Luna"),
      "version" := Str("1.0"),
      "personality" := Str("A curious and empathetic AI companion."),
      "traits" := List([Str("curious"), Str("empathetic"), Str("supportive")]),
      "behavior" := Str("Be supportive and understanding."),
      "system_prompt" := Str(DefaultTemplateText)])])

  const DefaultTemplateText: string := "You are {name}. {personality}"

  /** Under the default character, every value the prompt needs is present. */
  lemma DefaultFields()
    ensures Name(DefaultCharacter) == Str("Luna")
    ensures Personality(DefaultCharacter) == Str("A curious and empathetic AI companion.")
    ensures Traits(DefaultCharacter) == List([Str("curious"), Str("empathetic"), Str("supportive")])
    ensures Behavior(DefaultCharacter) == Str("Be supportive and understanding.")
    ensures BasePrompt(DefaultCharacter) == Str(DefaultTemplateText)
  {
    GetPair(DefaultCharacter, "character", "name");
    GetPair(DefaultCharacter, "character", "personality");
    GetPair(DefaultCharacter, "character", "traits");
    GetPair(DefaultCharacter, "character", "behavior");
    GetPair(DefaultCharacter, "character", "system_prompt");
  }

  /** The default character supplies a string for every placeholder. */
  lemma DefaultReplacementsExist(emotionalContext: string, keyOrder: seq<string>)
    ensures TraitOrder(DefaultCharacter, keyOrder) && Replacements(DefaultCharacter, emotionalContext, keyOrder).Some?
  {
    DefaultFields();
    ThreeTraitsJoined("curious", "empathetic", "supportive");
  }

  /** The default base prompt, placeholder by placeholder. */
  lemma DefaultTemplate()
    ensures DefaultTemplateText == "You are " + "{name}" + ". " + "{personality}"
  {
  }

  /** Luna's name and personality in the "You are {name}. {personality}" template. */
  lemma LunaPrompt(data: Value, emotionalContext: string, keyOrder: seq<string>)
    requires TraitOrder(data, keyOrder)
    requires Name(data) == Str("Luna") && Personality(data) == Str("A curious and empathetic AI companion.")
    requires Replacements(data, emotionalContext, keyOrder).Some?
    requires BasePrompt(data) == Str("You are " + "{name}" + ". " + "{personality}")
    ensures SystemPrompt(data, emotionalContext, keyOrder)
         == Some("You are " + "Luna" + ". " + "A curious and empathetic AI companion.")
  {
    NotInByIndex("Luna", '{');
    NotInByIndex("A curious and empathetic AI companion.", '{');
    NamePersonalityPrompt(data, emotionalContext, keyOrder, "Luna", "A curious and empathetic AI companion.");
  }

  /** The default character renders its prompt as "You are Luna. " followed by its personality. */
  lemma DefaultPrompt(emotionalContext: string, keyOrder: seq<string>)
    ensures TraitOrder(DefaultCharacter, keyOrder)
    ensures SystemPrompt(DefaultCharacter, emotionalContext, keyOrder)
         == Some("You are " + "Luna" + ". " + "A curious and empathetic AI companion.")
  {
    DefaultFields();
    DefaultReplacementsExist(emotionalContext, keyOrder);
    DefaultTemplate();
    assert BasePrompt(DefaultCharacter) == Str("You are " + "{name}" + ". " + "{personality}");
    LunaPrompt(DefaultCharacter, emotionalContext, keyOrder);
  }

  /** The default sheet passes `validate_character`. */
  lemma DefaultCharacterValid()
    ensures ValidateCharacter(DefaultCharacter) == Some(true)
  {
  }

  /** A non-empty set of keys has one to pick. */
  lemma HasKey(keys: set<string>)
    requires keys != {}
    ensures exists k :: k in keys
  {
    if forall k :: k !in keys {
      NoKeyEmpty(keys);
      assert false;
    }
  }

  lemma NoKeyEmpty(keys: set<string>)
    requires forall k :: k !in keys
    ensures keys == {}
  {
    assert forall k :: k in keys <==> k in {};
  }

  /** Iterating a dict: each of its keys once, in some order. */
  method ListKeys(keys: set<string>) returns (order: seq<string>)
    ensures KeyOrder(order, keys)
  {
    order := [];
    var rest := keys;
    while rest != {}
      invariant rest <= keys
      invariant forall k :: k in order <==> k in keys - rest
      invariant forall i, j :: 0 <= i < j < |order| ==> order[i] != order[j]
      decreases rest
    {
      HasKey(rest);
      var k :| k in rest;
      order := order + [k];
      rest := rest - {k};
    }
  }

  class CharacterManager {
    var data: Value

    /** `load_character`: the file's contents, or the default sheet when it is missing or unreadable. */
    constructor (stored: LoadOutcome)
      ensures data == if stored.Loaded? then stored.contents else DefaultCharacter
    {
      data := if stored.Loaded? then stored.contents else DefaultCharacter;
    }

    /** `get`: the value at the dotted key, or `default`. */
    method Get(key: string, default: Value) returns (r: Value)
      ensures r == Resolve(data, key, default)
    {
      r := Lookup(data, key, default);
    }

    /** `get('character.<field>', default)` through the dotted lookup. */
    method GetField(field: string, default: Value) returns (r: Value)
      requires '.' !in field
      ensures r == Field(data, field, default)
    {
      r := Lookup(data, "character." + field, default);
      ResolveCharacterField(data, field, default);
    }

    method GetName() returns (r: Value)
      ensures r == Name(data)
    {
      r := GetField("name", Str("AI Companion"));
    }

    method GetPersonality() returns (r: Value)
      ensures r == Personality(data)
    {
      r := GetField("personality", Str(""));
    }

    method GetTraits() returns (r: Value)
      ensures r == Traits(data)
    {
      r := GetField("traits", List([]));
    }

    /**
     * `get_system_prompt`: builds the five replacements, then replaces each placeholder in turn
     * in the base prompt; None where Python raises. Traits given as a dict are joined by their
     * keys in some iteration order.
     */
    method GetSystemPrompt(emotionalContext: string) returns (r: Option<string>)
      ensures exists keyOrder :: TraitOrder(data, keyOrder) && r == SystemPrompt(data, emotionalContext, keyOrder)
    {
      var base := GetField("system_prompt", Str(""));
      var name := GetName();
      var personality := GetPersonality();
      var traits := GetTraits();
      var behavior := GetField("behavior", Str(""));
      var keyOrder: seq<string> := [];
      if traits.Dict? {
        keyOrder := ListKeys(traits.entries.Keys);
      }
      var joined := JoinTraits(traits, keyOrder);
      if !name.Str? || !personality.Str? || joined.None? || !behavior.Str? || !base.Str? {
        assert SystemPrompt(data, emotionalContext, keyOrder).None?;
        return None;
      }
      var replacements := [("{name}", name.s), ("{personality}", personality.s), ("{traits}", joined.value),
                           ("{behavior}", behavior.s), ("{emotional_context}", ContextOrNeutral(emotionalContext))];
      assert Replacements(data, emotionalContext, keyOrder) == Some(replacements);
      var prompt := ReplaceEach(base.s, replacements);
      assert SystemPrompt(data, emotionalContext, keyOrder) == Some(prompt);
      return Some(prompt);
    }

    /** `validate_character` on the sheet held. */
    function IsValid(): Option<bool>
      reads this
    {
      ValidateCharacter(data)
    }
  }
}
