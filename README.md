# Limitless AI companion: a verified model of its core

This project models, in Dafny, the core of an AI companion chat application written in Python.
The application keeps conversational state, passes the user's text to a locally hosted language
model, and sends the reply on to several integrations: a Discord bot, a VTube Studio avatar and a
Piper speech synthesiser. The model covers the parts of that program that decide things.

- **The recency store and its helpers** (`Memories`, `BasicMemory`). This is a bounded list of
  memory records with derived tags. It evicts by importance and searches by substring, emotion
  or, when an embedding index is attached, semantically. It also formats conversation turns as
  `User: …\nAI: …` and parses them back.
- **The embedding index** (`VectorDb`). Each record carries a 100-dimensional bag-of-words vector,
  and the index ranks records by cosine similarity, filters them by emotion or tag, and reports
  statistics.
- **Dotted-key settings** (`Settings`, `Config`, `Character`, `CharacterSheet`). These cover the
  configuration and the character sheet: get and set by dotted key, validation, the defaults, and
  the system prompt built by placeholder substitution.
- **The emotion logic** (`EmotionTypes`, `Engine`, `EmotionalResponse`). This covers keyword-driven
  shifts of the emotional state, decay, the bounded histories, fact learning, personality
  adaptation, and the context strings handed to the language model. It also covers the
  template-based reply engine.
- **The plugins** (`PluginBase`, `PluginManager`, `DiscordBot`, `VTubeStudio`, `PiperTts`). This
  covers the plugin registry and the decision logic of the three integrations.
- **Text truncation** (`Helpers`).

`Text` and `Collections` hold the Python built-ins these modules rely on. `Text` covers string
methods and slicing. `Collections` covers the stable sort, insertion-ordered dictionaries as
association lists, and counting.

Where the source updates state in place, the model is a class with `modifies` clauses, and its
loops are methods with invariants. Each such method is proved against a specification function,
and the properties are proved as lemmas about those functions.

Timestamps are clock readings passed in as integers. Importance, intensity and similarity are
`real`. `random.choice` is modelled as "some element of the list".

Two behaviours of the code differ from the design description of the memory subsystem, and the
model follows the code:
- The description says an overflowing store keeps its most important records. The code sorts
  by importance, keeps the last `max_memories - 1` records and then appends the new one. So the
  new record is always kept, whatever its importance (`Memories.NewestKeptOverMoreImportant`).
- With `max_memories == 1` the slice `[-0:]` keeps every record, so the store is not bounded
  (`Memories.CapacityOneNeverEvicts`).

## Model

| member | source | states |
|---|---|---|
| EmotionTypes.AllEmotionsComplete | ai_core/emotion_types.py:4-14 | the ten members, each listed exactly once, in declaration order |
| EmotionTypes.Value | ai_core/emotion_types.py:5-14 | each member's value is a non-empty lower-case word |
| EmotionTypes.ValuesDistinct | ai_core/emotion_types.py:5-14 | no two members share a value |
| EmotionTypes.FromValue | ai_core/emotion_types.py:4-14 | constructing the enum from a string finds the member with that value, and fails exactly when no member has it |
| EmotionTypes.Triggers | ai_core/emotion_types.py:28-33 | JOY, SADNESS, ANGER and CURIOSITY have six trigger words each; every other emotion has none |
| EmotionTypes.TriggerTable | ai_core/emotion_types.py:28-33 | the trigger table names each emotion at most once, and a lookup succeeds exactly for the four emotions with triggers |
| EmotionTypes.ExcitedIsJoy | ai_core/emotion_types.py:29 | "excited" triggers JOY, and EXCITEMENT has no trigger words |
| EmotionTypes.DefaultResponse | ai_core/emotion_types.py:36-41 | a default reply exists exactly for JOY, SADNESS, CURIOSITY and NEUTRAL |
| Helpers.TruncateText | utils/helpers.py:55-59 | a text that fits is returned unchanged; a longer one keeps its first `max_length - 3` characters and ends in "..."; with a limit below 3 the result is longer than the limit |
| Helpers.TruncateIdempotent | utils/helpers.py:55-59 | for limits of at least 3, truncating a truncated text changes nothing |
| Helpers.ShortLimitGrows | utils/helpers.py:59 | a limit of 1 turns "abcde" into "abc...", six characters |
| Config.ValidateConfig | config/config_manager.py:82-89 | a configuration dict is valid exactly when "core", "ollama", "memory" and "plugins" are all top-level keys |
| Config.DefaultConfigProperties | config/config_manager.py:66-80 | the defaults validate, keep up to 1000 memories, leave semantic search off and enable plugins |
| Config.ConfigManager.constructor | config/config_manager.py:8-28 | a missing or unreadable file gives the defaults; otherwise the file's contents |
| Config.ConfigManager.Get | config/config_manager.py:30-41 | returns the value at the dotted key, or the default as soon as a step is not a dict holding the key |
| Config.ConfigManager.Set | config/config_manager.py:43-53 | succeeds exactly when no existing value along the path is a non-dict; on success the key then reads back the value; on failure the configuration is unchanged |
| Settings.Lookup | config/config_manager.py:30-41 | the loop of `get`: the value at the dotted path, and the default as soon as a step fails |
| Settings.DottedPair | config/config_manager.py:32 | a two-part dotted key splits into its two parts |
| Settings.GetPair | config/config_manager.py:35-41 | reading a two-part path finds the inner value only when both steps reach dicts holding the keys |
| Settings.FreshSettable | config/config_manager.py:49-51 | the empty dict that `set` creates for a missing key can take any remaining path |
| Settings.SetPathSucceeds | config/config_manager.py:43-53 | `set` succeeds exactly when every existing value along the path is a dict |
| Settings.GetAfterSet | config/config_manager.py:43-53 | after a successful `set(k, x)`, `get(k)` gives `x` |
| Settings.EmptyDictPath | config/config_manager.py:36-39 | no non-empty path leads anywhere through an empty dict |
| Settings.SetFrame | config/config_manager.py:43-53 | `set` leaves every path that parts from its own reading the same value |
| Settings.In | config/config_manager.py:86 | Python's `in`: key membership on a dict; values other than dicts, lists and strings raise |
| Settings.AllIn | config/config_manager.py:84-89 | on a dict, true exactly when every required key is present; on a value without `in`, an error |
| Character.CharacterKey | character/character_manager.py:44 | `character.<field>` splits into the path `character`, `<field>` |
| Character.ResolveCharacterField | character/character_manager.py:29-52 | the dotted lookup of a character field is the section's entry when the section is a dict holding it, else the default |
| Character.Fallbacks | character/character_manager.py:42-52 | a section without the fields gives the name "AI Companion", an empty personality and no traits |
| Character.StrItems | character/character_manager.py:61 | `join` accepts a list exactly when every item is a string, and keeps the items in order |
| Character.Chars | character/character_manager.py:61 | a string passed to `join` contributes its characters, one per item |
| Character.ReplacementsShape | character/character_manager.py:58-64 | the replacements are the five placeholders in order, and the last is filled with the emotional context or "neutral" |
| Character.ReplaceEach | character/character_manager.py:66-70 | the loop applies one `replace` per placeholder, in order, each to the previous result |
| Character.SubstituteAbsent | character/character_manager.py:67-68 | a prompt holding no placeholder passes through the replacements unchanged |
| Character.PromptWithoutPlaceholders | character/character_manager.py:54-70 | a base prompt without any of the five placeholders is returned as it is |
| Character.DictJoinsKeys | character/character_manager.py:61 | `join` over a dict of traits gives what it gives for the list of the dict's keys in iteration order |
| Character.ThreeTraitsJoined | character/character_manager.py:61 | three string traits render as "a, b, c" |
| Character.ReplaceFirstOnly | character/character_manager.py:68 | `replace` fills the placeholder and keeps the rest of the prompt intact |
| Character.SubstituteNoBrace | character/character_manager.py:67-68 | a text without `{` is not changed by placeholders that open with `{` |
| Character.FillNameThenPersonality | character/character_manager.py:98 | the default template "You are {name}. {personality}" fills both fields |
| Character.PlaceholdersBraced | character/character_manager.py:58-64 | all five placeholders open with `{` |
| Character.SubstituteFirstTwo | character/character_manager.py:67-68 | the first two replacements run before the rest |
| Character.NamePersonalityPrompt | character/character_manager.py:54-70 | a prompt shaped like the default template renders as "You are <name>. <personality>" when neither value holds a `{` |
| Character.SubstituteAppend | character/character_manager.py:67-68 | running two lists of replacements one after the other is running their concatenation |
| Character.OnlyLastMatches | character/character_manager.py:67-68 | when only the last placeholder occurs, the prompt becomes its value |
| Character.EarlierPlaceholders | character/character_manager.py:58-63 | the first four placeholders are no longer than `{emotional_context}` and differ from it at the second character |
| Character.EmotionalContextPrompt | character/character_manager.py:63 | a prompt of `{emotional_context}` alone renders the context, or "neutral" when it is empty |
| Character.LaterPlaceholdersFillEarlierValues | character/character_manager.py:66-68 | a name holding `{personality}` has it filled by the next replacement, because replacements apply to the running result |
| Character.ValidateCharacter | character/character_manager.py:102-111 | data that is not a dict raises; a missing section fails; a dict section is valid exactly when it holds name, personality and traits |
| CharacterSheet.DefaultFields | character/character_manager.py:89-100 | the default sheet names Luna, her personality, her three traits, her behaviour and the template "You are {name}. {personality}" |
| CharacterSheet.DefaultReplacementsExist | character/character_manager.py:58-64 | the default sheet supplies a string for every placeholder |
| CharacterSheet.LunaPrompt | character/character_manager.py:54-70 | Luna's name and personality fill the default template |
| CharacterSheet.DefaultPrompt | character/character_manager.py:54-100 | the default character's prompt is "You are Luna. A curious and empathetic AI companion." whatever the emotional context |
| CharacterSheet.DefaultCharacterValid | character/character_manager.py:89-111 | the default sheet passes `validate_character` |
| CharacterSheet.CharacterManager.constructor | character/character_manager.py:7-27 | a missing or unreadable file gives the default sheet; otherwise the file's contents |
| CharacterSheet.CharacterManager.Get | character/character_manager.py:29-40 | returns the value at the dotted key, or the default |
| CharacterSheet.CharacterManager.GetField | character/character_manager.py:29-52 | `get('character.<field>', default)` reads the section's field |
| CharacterSheet.CharacterManager.GetName | character/character_manager.py:42-44 | the name, or "AI Companion" |
| CharacterSheet.CharacterManager.GetPersonality | character/character_manager.py:46-48 | the personality, or "" |
| CharacterSheet.CharacterManager.GetTraits | character/character_manager.py:50-52 | the traits, or an empty list |
| CharacterSheet.CharacterManager.GetSystemPrompt | character/character_manager.py:54-70 | the prompt that `SystemPrompt` describes (whose properties the lemmas above prove) for some iteration order of a traits dict's keys; an error where Python raises |
| CharacterSheet.ListKeys | character/character_manager.py:61 | iterating a dict of traits yields each of its keys exactly once |
| Memories.NonEmpty | memory/memory_manager.py:25 | keeps exactly the non-empty tags |
| Memories.NonEmptyAppend | memory/memory_manager.py:20-25 | dropping empty tags from a concatenation drops them from each part |
| Memories.GenerateTags | memory/memory_manager.py:18-25 | the tags are the non-empty type and emotional context, then the first five lowered content words longer than four characters; none is empty and there are at most seven |
| Memories.FromVectors | memory/memory_manager.py:139-149 | one record per index hit, in order, each rebuilt from its hit |
| Memories.EvictDropsLeastImportant | memory/memory_manager.py:74-77 | eviction only removes records, never one more important than a record it keeps, and below capacity removes nothing |
| Memories.EvictBelowCapacity | memory/memory_manager.py:74-77 | with room for at least two records, eviction on a full store leaves `max_memories - 1` records |
| Memories.CapacityOneNeverEvicts | memory/memory_manager.py:77 | with `max_memories == 1` the slice `[-0:]` keeps every record, so the store grows without bound |
| Memories.CapacityAfterAdds | memory/memory_manager.py:70-80 | with room for at least two records, the store grows one per add until it holds `max_memories`, then stays there |
| Memories.NewestKeptOverMoreImportant | memory/memory_manager.py:74-79 | the newest record is always kept: with room for two, adding importances 0.9, 0.8, 0.1 keeps 0.9 and 0.1 |
| Memories.AddStep | memory/memory_manager.py:74-79 | one add evicts and then appends |
| Memories.EvictPair | memory/memory_manager.py:74-77 | a full store of two keeps the more important record when it makes room |
| Memories.MatchesOf | memory/memory_manager.py:114-120 | the matches are exactly the records whose content or one of whose tags contains the lowered query |
| Memories.RelevanceOrder | memory/memory_manager.py:123-127 | the relevance key (content match, importance, timestamp) orders all records |
| Memories.RelevanceSorted | memory/memory_manager.py:123-127 | the matches come out sorted by descending relevance |
| Memories.BasicResultsProperties | memory/memory_manager.py:111-129 | basic search returns at most `limit` matches, best first, none better than one returned is left out, and all matches when they fit |
| Memories.WithEmotion | memory/memory_manager.py:159-163 | exactly the records whose lowered emotional context contains the lowered emotion |
| Memories.RecentProperties | memory/memory_manager.py:99-102 | at most `limit` records of the store, newest first, and none left out is newer than one returned |
| Memories.NewestFirst | memory/memory_manager.py:101 | a prefix of the records sorted by timestamp is newest first, and nothing outside it is newer |
| Memories.TimestampSorted | memory/memory_manager.py:101 | sorting by timestamp in reverse gives a newest-first order |
| Memories.ConversationContents | memory/memory_manager.py:170-174 | the collected contents all come from "conversation" records |
| Memories.Contents | memory/memory_manager.py:184-187 | the contents of the hits, in order |
| Memories.Timestamps | memory/memory_manager.py:200-201 | the timestamps of the records, in order |
| Memories.TypesOf | memory/memory_manager.py:195-198 | the types of the records, in order |
| Memories.HitsFromIndex | memory/memory_manager.py:136-151 | every record rebuilt from index hits comes from an index entry |
| Memories.LastContentsFrom | memory/memory_manager.py:176 | the last three conversation contents are at most three, each from a recent record |
| Memories.MemoryManager.constructor | memory/memory_manager.py:52-68 | an empty store with the configured capacity and, when semantic search is on, an embedding index |
| Memories.MemoryManager.AddMemory | memory/memory_manager.py:70-93 | evicts when full, appends the record, returns "memory_" and the new count, and mirrors the record into the index when there is one |
| Memories.MemoryManager.GetRecentMemories | memory/memory_manager.py:99-102 | at most `limit` records of the store, newest first |
| Memories.MemoryManager.BasicSearch | memory/memory_manager.py:111-129 | at most `limit` matching records, best ranked first |
| Memories.MemoryManager.SearchMemories | memory/memory_manager.py:104-109 | semantic search when asked and an index exists, basic search otherwise; never more than `limit` records |
| Memories.MemoryManager.SemanticSearch | memory/memory_manager.py:131-151 | up to `2 * limit` index hits rebuilt as records and cut to `limit`; nothing from an empty index or one holding an embedding of the wrong length |
| Memories.MemoryManager.Convert | memory/memory_manager.py:139-149 | the loop rebuilds each hit as a record, in order |
| Memories.MemoryManager.SearchByEmotion | memory/memory_manager.py:157-165 | the first `limit` records, in store order, whose emotional context contains the emotion |
| Memories.MemoryManager.GetConversationContext | memory/memory_manager.py:167-176 | the last three conversation contents among the `limit` newest records, joined by newlines |
| Memories.MemoryManager.CollectContents | memory/memory_manager.py:170-174 | the loop collects the conversation contents in order |
| Memories.MemoryManager.GetSemanticContext | memory/memory_manager.py:178-189 | without an index, the conversation context; with one, the contents of its semantic hits joined by newlines, empty when its search fails on an embedding of the wrong length |
| Memories.MemoryManager.GetMemoryStats | memory/memory_manager.py:191-208 | the count, a positive per-type count for exactly the types present, whether an index exists, the least and greatest timestamps of a non-empty store (each that of a stored memory), and, when an index is attached, exactly the report `VectorDb.IsStatsOf` describes for its records |
| BasicMemory.Exchange | memory/basic_memory.py:39-52 | a record contributes nothing, or a user message and an assistant message that both carry its timestamp |
| BasicMemory.HistoryEntries | memory/basic_memory.py:36-52 | the loop yields messages in pairs, at most two per record |
| BasicMemory.NoSeparatorBefore | memory/basic_memory.py:40 | "\nAI: " does not occur in the stored turn before the separator |
| BasicMemory.PrefixedNoSeparator | memory/basic_memory.py:13 | prefixing "User: " adds no separator |
| BasicMemory.ConversationSplits | memory/basic_memory.py:13-40 | a turn whose parts do not contain "\nAI: " splits back into the prefixed input and the reply |
| BasicMemory.UserPrefixRemoved | memory/basic_memory.py:42 | removing "User: " gives the input back when the input has none of its own |
| BasicMemory.ConversationRoundTrip | memory/basic_memory.py:10-52 | a stored turn reads back as exactly its user message and its reply, when neither holds the separator and the input holds no "User: " |
| BasicMemory.ReplyWithSeparatorDropped | memory/basic_memory.py:40-41 | a reply containing "\nAI: " splits into three parts, so the turn is left out of the history |
| BasicMemory.HistoryProperties | memory/basic_memory.py:33-54 | the history is oldest first and holds every message of the `limit` newest records, in pairs, at most `2 * limit` |
| BasicMemory.OldestFirst | memory/basic_memory.py:54 | sorting by timestamp orders every suffix oldest first |
| BasicMemory.BasicMemoryManager.constructor | memory/basic_memory.py:6-8 | wraps the recency store it extends |
| BasicMemory.BasicMemoryManager.AddConversationMemory | memory/basic_memory.py:10-20 | stores "User: <input>\nAI: <reply>" as a conversation record of importance 0.7 through `add_memory` |
| BasicMemory.BasicMemoryManager.AddUserFact | memory/basic_memory.py:22-31 | stores "User fact: <fact>" as a fact record through `add_memory` |
| BasicMemory.BasicMemoryManager.GetConversationHistory | memory/basic_memory.py:33-54 | the messages of the `limit` newest records, oldest first, in pairs, at most `2 * limit` |
| BasicMemory.BasicMemoryManager.CollectExchanges | memory/basic_memory.py:36-52 | the loop reads each record back as its messages, in order |
| VectorDb.DistinctCard | memory/vector_db.py:64 | a list of distinct words has as many members as entries |
| VectorDb.EnumerationLength | memory/vector_db.py:63-64 | `list(set(words))` has one entry per distinct word |
| VectorDb.BlankEmbedding | memory/vector_db.py:60-70 | a text without words embeds as the 100-entry zero vector |
| VectorDb.EmbeddingEntries | memory/vector_db.py:60-70 | the embedding has 100 entries, zero from the number of distinct words on, and every non-zero entry is the relative frequency of a word of the text |
| VectorDb.EmbeddingEntriesDistinct | memory/vector_db.py:64-68 | two filled entries hold the frequencies of two different words |
| VectorDb.GenerateEmbedding | memory/vector_db.py:60-70 | the loop fills the relative frequencies of the distinct words in the order the word set is iterated |
| VectorDb.ZeroVectorNorm | memory/vector_db.py:118-121 | the zero vector has norm 0 |
| VectorDb.ZeroVectorSimilarity | memory/vector_db.py:115-124 | the similarity of the zero vector to any vector, either way round, is 0 |
| VectorDb.ExtractTags | memory/vector_db.py:72-85 | an `emotion:<context>` tag for a non-empty context, then the first five lowered words longer than four characters; at most six tags |
| VectorDb.Scored | memory/vector_db.py:95-105 | every collected pair holds a stored record of an allowed type and its similarity to the query |
| VectorDb.Records | memory/vector_db.py:109 | the records of the ranked pairs, in order |
| VectorDb.SemanticRankingProperties | memory/vector_db.py:87-109 | at most `limit` stored records, all of an allowed type, in non-increasing similarity to the query |
| VectorDb.WithEmotion | memory/vector_db.py:128-132 | exactly the records whose lowered emotional context contains the lowered emotion |
| VectorDb.WithTags | memory/vector_db.py:138-145 | exactly the records with a lowered tag containing some lowered search tag |
| VectorDb.Timestamps | memory/vector_db.py:226-227 | the timestamps of the records, in order |
| VectorDb.TallySums | memory/vector_db.py:209-219 | both tallies count every record once, and no record is counted under an empty emotion |
| VectorDb.VectorMemory.constructor | memory/vector_db.py:12-26 | a new index holds what loads from disk, or nothing |
| VectorDb.VectorMemory.LoadMemories | memory/vector_db.py:184-202 | a missing file keeps the list, a readable one replaces it, an unreadable one empties it |
| VectorDb.VectorMemory.AddMemory | memory/vector_db.py:28-54 | appends one record, with the id "vec_mem_<count>_<clock>", the given fields, its tags and an embedding of its content, and keeps the earlier records |
| VectorDb.VectorMemory.SemanticSearch | memory/vector_db.py:87-124 | nothing from an empty index, nor when a stored embedding is not 100 entries long (`np.dot` raises, whatever the record's type, and the error is caught); otherwise at most `limit` stored records of an allowed type, ranked by similarity to the query's embedding |
| VectorDb.VectorMemory.SearchByEmotion | memory/vector_db.py:126-134 | the first `limit` records, in store order, whose emotional context contains the emotion |
| VectorDb.VectorMemory.SearchByTags | memory/vector_db.py:136-147 | the first `limit` records, in store order, with a tag that contains a search tag |
| VectorDb.VectorMemory.GetRecentMemories | memory/vector_db.py:149-154 | at most `limit` stored records, newest first |
| VectorDb.VectorMemory.GetImportantMemories | memory/vector_db.py:156-161 | at most `limit` stored records, most important first |
| VectorDb.VectorMemory.TypesStep | memory/vector_db.py:214-215 | one more record adds one to its type's count |
| VectorDb.VectorMemory.EmotionsStep | memory/vector_db.py:218-219 | one more record adds one to its emotion's count, "neutral" for an empty context |
| VectorDb.VectorMemory.CountTypesAndEmotions | memory/vector_db.py:212-219 | the loop produces both tallies, in first-seen order |
| VectorDb.VectorMemory.GetMemoryStats | memory/vector_db.py:204-228 | an empty index gives only its count; otherwise the tallies of types and emotions, each adding up to the total with no empty emotion, the mean importance, and the least and greatest timestamps, each that of a stored record |
| VectorDb.StatsDetermined | memory/vector_db.py:204-228 | the stats report is determined by the records: two reports on the same index agree |
| Engine.ShiftScore | ai_engine.py:205-211 | each emotion's shift is 0.3 per trigger word found in the lowered input; an emotion with no trigger present has no entry |
| Engine.ShiftsInEnumOrder | ai_engine.py:207-211 | the shifts are keyed in `EmotionType` order, each emotion at most once |
| Engine.NoShiftIffNoTrigger | ai_engine.py:205-211 | there is no trigger shift exactly when no trigger word of any emotion occurs |
| Engine.FirstMax | ai_engine.py:222 | `max` by value returns a largest item, the first among equals |
| Engine.Without | ai_engine.py:226 | the secondaries are exactly the other entries of the shifts |
| Engine.Shifted | ai_engine.py:221-228 | the new state's intensity is at most 1.0 and its primary emotion is not among its secondaries |
| Engine.ShiftPicksLargest | ai_engine.py:205-228 | the primary emotion has the most trigger words found, the first in enum order among equals; intensity is 0.3 per word capped at 1.0; the secondaries are exactly the other triggered emotions with their shifts |
| Engine.RecentEmotionMeaning | ai_engine.py:247-257 | the recent emotion is NEUTRAL exactly when all of the last ten states are NEUTRAL; otherwise it is the newest non-NEUTRAL primary among them |
| Engine.ShiftsPositive | ai_engine.py:205-218 | every shift is positive |
| Engine.NoShiftIff | ai_engine.py:213-218 | no shift at all exactly when no trigger word occurs and the last ten states are all NEUTRAL |
| Engine.FallbackToRecent | ai_engine.py:214-228 | without triggers, a recent non-NEUTRAL emotion becomes primary again at 0.2 with no secondaries |
| Engine.DecayOrReset | ai_engine.py:234-245 | with no shift, an intensity above 0.3 is multiplied by 0.8 and nothing else changes; otherwise the state resets to NEUTRAL at 0.3; the history is untouched |
| Engine.IntensityStaysInRange | ai_engine.py:220-245 | the intensity stays between 0.0 and 1.0 |
| Engine.HistoryBounded | ai_engine.py:230-233 | a shift appends the new state to the history, which keeps its newest 50 entries; no shift leaves the history alone |
| Engine.AnalysisScore | ai_engine.py:442-455 | each emotion scores 0.1 per trigger word found in the lowered text, only when some word is found, and never reaches the 1.0 cap |
| Engine.AnalysisMatchesShifts | ai_engine.py:205-211 | an emotion has an analysis score exactly when it has a shift, and the shift is three times the score |
| Engine.InitialPersonalityUniform | ai_engine.py:66-75 | the initial personality holds exactly the character's traits, each at 0.7 |
| Engine.PrepareMessages | ai_engine.py:319-336 | the user's input is always the last message; a system message with the context precedes it exactly when the context is non-empty |
| Engine.EnhancedContextShape | ai_engine.py:295-317 | at most one part per recent record and per hit plus three facts, ending with the newest fact once one is known |
| Engine.IntensityBands | ai_engine.py:343 | "slightly" below 0.4, "moderately" from 0.4 below 0.7, "very" from 0.7 |
| Engine.ContextStringRoundTrip | ai_engine.py:359-369 | the stored context string splits back into the band and the value of the primary emotion |
| Engine.SignificantEmpty | ai_engine.py:348-352 | no secondary is listed exactly when every secondary intensity is at most 0.3 |
| Engine.EmotionalContextShape | ai_engine.py:338-357 | the context starts with the band and primary emotion, and adds more exactly when a secondary is above 0.3 |
| Engine.StrongTraitsMembers | ai_engine.py:373-376 | a trait is emphasised exactly when its strength is above 0.7 |
| Engine.FreshPersonalityBalanced | ai_engine.py:66-75 | a freshly initialised personality reads "Personality: balanced" |
| Engine.CuriosityEmphasised | ai_engine.py:280-291 | adapting at a positive rate raises curiosity above 0.7 and at most 1.0, so it is emphasised, and leaves other traits alone |
| Engine.IntegrationContextShape | ai_engine.py:383-397 | "No active integrations" exactly when none is active; TTS alone is listed as "Text-to-Speech" |
| Engine.AIEngine.constructor | ai_engine.py:17-53 | NEUTRAL at 0.5 with the character's base emotions, each trait at 0.7, nothing learned, no history, no integration |
| Engine.AIEngine.GetRecentEmotionalContext | ai_engine.py:247-257 | the loop returns the newest non-NEUTRAL emotion of the last ten states |
| Engine.AIEngine.UpdateEmotionalState | ai_engine.py:200-245 | the new state and history follow the shifts found in the input and recent history |
| Engine.AIEngine.ApplyShifts | ai_engine.py:220-245 | the strongest shift wins and is recorded, otherwise the state decays |
| Engine.AIEngine.DetectShifts | ai_engine.py:205-211 | the trigger loop builds the per-emotion shifts |
| Engine.AIEngine.ShiftEmotion | ai_engine.py:208-211 | the inner loop adds 0.3 per trigger word found and creates the entry at the end |
| Engine.AIEngine.LearnFromInteraction | ai_engine.py:259-278 | when learning is on and an indicator phrase occurs, the input is appended once as a fact of confidence 0.8; otherwise nothing changes |
| Engine.AIEngine.MentionsIndicator | ai_engine.py:265-278 | the loop finds an indicator exactly when one occurs in the lowered input |
| Engine.AIEngine.UpdatePersonality | ai_engine.py:280-291 | when learning is on and both sides ask, curiosity grows by the rate times 0.1, capped at 1.0; a non-numeric rate raises and changes nothing |
| Engine.AIEngine.RecordExchange | ai_engine.py:174-182 | both turns are appended and the newest 20 messages kept |
| Engine.AIEngine.PrepareEnhancedContext | ai_engine.py:295-317 | the conversation records among the three newest, at most two semantic hits from the stored records (none without an index, or when its search fails on an embedding of the wrong length), then the last three facts, joined by newlines |
| Engine.AIEngine.ConversationLines | ai_engine.py:301-303 | the contents of the conversation records, in order |
| Engine.AIEngine.RelevantLines | ai_engine.py:306-309 | one "Relevant memory" line per hit |
| Engine.AIEngine.FactLines | ai_engine.py:312-315 | one "Known fact" line per fact |
| Engine.AIEngine.UpdateIntegrationStates | ai_engine.py:118-124 | each integration is active exactly when its plugin is loaded |
| Engine.AIEngine.GetEmotionalAnalysis | ai_engine.py:442-455 | the loop returns the analysis scores |
| EmotionalResponse.ModifierNeedsTrigger | ai_core/emotional_response.py:92-95 | a modifier phrase is found only where the trigger word it is built on occurs |
| EmotionalResponse.TriggerScoreMeaning | ai_core/emotional_response.py:85-98 | an emotion with triggers scores exactly when one of them occurs: 0.2 per trigger plus 0.1 per modifier before its last trigger, capped at 1.0 |
| EmotionalResponse.NoTriggersNoScore | ai_core/emotional_response.py:85-98 | emotions without trigger words get no score from the trigger loop |
| EmotionalResponse.AnalyzeScores | ai_core/emotional_response.py:79-106 | EXCITEMENT is 0.3 exactly when the text has "!"; CURIOSITY gets 0.2 more after a "?"; JOY, SADNESS and ANGER keep their trigger scores; the other emotions never score |
| EmotionalResponse.ScoresBounded | ai_core/emotional_response.py:97-104 | every score is positive and at most 1.2 |
| EmotionalResponse.CuriosityAboveCap | ai_core/emotional_response.py:98-104 | the "?" bonus is added after the cap, so CURIOSITY can reach 1.2 |
| EmotionalResponse.ScoreEmotion | ai_core/emotional_response.py:86-95 | the two inner loops give the emotion's trigger score, the modifier loop using the last trigger |
| EmotionalResponse.ScoreTable | ai_core/emotional_response.py:85-98 | the outer loop stores each positive score, capped at 1.0 |
| EmotionalResponse.TemplatesCoverage | ai_core/emotional_response.py:16-61 | JOY, SADNESS, ANGER, CURIOSITY, EXCITEMENT and NEUTRAL have five replies each, every other emotion none |
| EmotionalResponse.ResponderChoice | ai_core/emotional_response.py:108-125 | there is always a reply; with no input score above 0.5 the current emotion (else NEUTRAL) answers; a single strongest input emotion above 0.5 with replies answers |
| EmotionalResponse.FlavorOutcomes | ai_core/emotional_response.py:127-148 | unchanged up to 0.7 and for other emotions; above 0.7 JOY loses every ".", EXCITEMENT and CURIOSITY get their closing remark; the branch for 0.9 is never reached |
| EmotionalResponse.PrimaryValues | ai_core/emotional_response.py:175 | one emotion value per stored context |
| EmotionalResponse.MostCommonIndex | ai_core/emotional_response.py:181 | `max` by count returns a largest count, the first among equals |
| EmotionalResponse.PatternsMeaning | ai_core/emotional_response.py:167-182 | the total is the number of contexts, each value's count is how often it occurs, the counts add up to the total, and the most common value occurs at least as often as any other |
| EmotionalResponse.CountStep | ai_core/emotional_response.py:174-176 | counting one more context adds one to its value's count |
| EmotionalResponse.EmotionalResponseEngine.constructor | ai_core/emotional_response.py:10-14 | the emotional memory starts empty |
| EmotionalResponse.EmotionalResponseEngine.AnalyzeEmotionalContent | ai_core/emotional_response.py:79-106 | returns the analysis scores |
| EmotionalResponse.EmotionalResponseEngine.GetBaseResponse | ai_core/emotional_response.py:108-125 | returns one of the replies of the emotion chosen to answer |
| EmotionalResponse.EmotionalResponseEngine.StoreEmotionalContext | ai_core/emotional_response.py:150-165 | the context is appended and the newest 100 kept |
| EmotionalResponse.EmotionalResponseEngine.GenerateEmotionalResponse | ai_core/emotional_response.py:63-77 | a reply of the chosen emotion, flavoured by the current state, recorded with both emotions |
| EmotionalResponse.EmotionalResponseEngine.GetEmotionalPatterns | ai_core/emotional_response.py:167-182 | returns the patterns of the stored contexts, none for an empty store |
| EmotionalResponse.EmotionalResponseEngine.CountEmotions | ai_core/emotional_response.py:173-176 | the loop tallies each AI emotion value in first-seen order |
| PluginBase.Plugin.constructor | plugins/plugin_base.py:8-14 | a new plugin is enabled |
| PluginBase.Plugin.IsEnabled | plugins/plugin_base.py:52-54 | true exactly when the plugin is enabled |
| PluginBase.Plugin.SetEnabled | plugins/plugin_base.py:56-58 | the flag, and nothing else, takes the new value |
| PluginBase.Plugin.GetConfigSchema | plugins/plugin_base.py:36-38 | the default schema is empty |
| PluginManager.ListenersMeaning | plugins/plugin_manager.py:95-120 | a broadcast reaches every registered plugin that is enabled, and only those |
| PluginManager.LoadAllNames | plugins/plugin_manager.py:26-28 | after loading, a name is registered exactly when it was before or a candidate of that name initialised |
| PluginManager.UnloadUndoesLoad | plugins/plugin_manager.py:60 | deleting a name just registered for the first time gives back the old registry |
| PluginManager.KeptNone | plugins/plugin_manager.py:74-85 | unloading names that are not registered changes nothing |
| PluginManager.KeptEverything | plugins/plugin_manager.py:122-125 | unloading every registered name empties the registry |
| PluginManager.CleanupStep | plugins/plugin_manager.py:124-125 | each turn of `cleanup_all` finds its name still registered and deletes it unless its cleanup raises |
| PluginManager.Manager.constructor | plugins/plugin_manager.py:9-16 | the registry starts empty |
| PluginManager.Manager.LoadPlugin | plugins/plugin_manager.py:41-72 | the plugin is registered under its name, replacing any other, exactly when the module holds a plugin class and it initialises |
| PluginManager.Manager.LoadPlugins | plugins/plugin_manager.py:18-39 | disabled plugins load nothing and give true; a `core_plugins` setting that cannot be iterated loads nothing and gives false; otherwise each core plugin is loaded in turn and the result is true |
| PluginManager.Manager.UnloadPlugin | plugins/plugin_manager.py:74-85 | a registered plugin whose cleanup succeeds is deleted and true returned; otherwise nothing changes and false is returned |
| PluginManager.Manager.GetPlugin | plugins/plugin_manager.py:87-89 | the plugin under the name, or nothing exactly when the name is not registered |
| PluginManager.Manager.GetLoadedPlugins | plugins/plugin_manager.py:91-93 | the registered names in registration order |
| PluginManager.Manager.Broadcast | plugins/plugin_manager.py:95-120 | the hooks called are those of the enabled plugins, in registration order |
| PluginManager.Manager.CleanupAll | plugins/plugin_manager.py:122-125 | only plugins whose cleanup raised remain; with none raising the registry ends empty |
| DiscordBot.ChunkAt | plugins/core_plugins/discord_bot.py:112 | one chunk per start point `range(0, len, 2000)`, chunk `i` being the slice from `2000*i` of up to 2000 characters |
| DiscordBot.ChunksJoin | plugins/core_plugins/discord_bot.py:112 | the chunks join back to the text, each holds 1 to 2000 characters, all but the last exactly 2000 |
| DiscordBot.RepliesRoundTrip | plugins/core_plugins/discord_bot.py:111-116 | a reply of up to 2000 characters goes out whole; a longer one in chunks that join back to it, each at most 2000 and all but the last exactly 2000 |
| DiscordBot.NoMentionUnchanged | plugins/core_plugins/discord_bot.py:98-99 | text holding no "<" is left unchanged by the mention loop |
| DiscordBot.LeadingMentionRemoved | plugins/core_plugins/discord_bot.py:98-99 | a message opening with the bot's mention, and holding no other "<", loses exactly that mention |
| DiscordBot.HasChannel | plugins/core_plugins/discord_bot.py:81 | a non-empty set of channels holds a channel |
| DiscordBot.AnswerCases | plugins/core_plugins/discord_bot.py:75-103 | the bot's own messages and messages from channels outside a non-empty set are ignored; otherwise a direct message is answered and a channel message exactly when it mentions the bot; there is no reply exactly when the prompt is empty |
| DiscordBot.Bot.constructor | plugins/core_plugins/discord_bot.py:8-19 | a new, enabled plugin named "discord_bot" that listens to no particular channel and has started nothing |
| DiscordBot.Bot.Initialize | plugins/core_plugins/discord_bot.py:24-59 | true without starting when disabled; false for an empty token; otherwise the client starts, the configured channel is added, and an id that is not an integer makes the result false |
| DiscordBot.Bot.AddEnabledChannel | plugins/core_plugins/discord_bot.py:167-169 | set insertion |
| DiscordBot.Bot.RemoveEnabledChannel | plugins/core_plugins/discord_bot.py:171-173 | set deletion; an absent id changes nothing |
| DiscordBot.Bot.GetEnabledChannels | plugins/core_plugins/discord_bot.py:175-177 | every listened-to channel exactly once |
| DiscordBot.Bot.Listed | plugins/core_plugins/discord_bot.py:177 | `list` of a set holds each member exactly once |
| DiscordBot.Bot.StripMentions | plugins/core_plugins/discord_bot.py:98-99 | the loop removes both mention forms of every mentioned id |
| DiscordBot.Bot.OnMessage | plugins/core_plugins/discord_bot.py:75-116 | the messages sent back: the replies to the prompt when the gate lets the message through, none otherwise |
| VTubeStudio.EmotionExpression | plugins/core_plugins/vtube_studio.py:142-154 | looking an emotion's value up in the map gives the avatar expression meant for it; DISGUST and NEUTRAL show "idle" |
| VTubeStudio.UnknownIsIdle | plugins/core_plugins/vtube_studio.py:154 | a name that is no emotion's value maps to "idle" |
| VTubeStudio.RequestsRoundTrip | plugins/core_plugins/vtube_studio.py:65-98 | an activation request names its expression in its id "expression_<e>" and its file "<e>.exp3.json" with `active` true; a hotkey request names its hotkey in its id and `hotkeyID`; only the second authentication request carries the token |
| VTubeStudio.Studio.constructor | plugins/core_plugins/vtube_studio.py:12-21 | an enabled plugin named "vtube_studio", unauthenticated, no websocket, showing "neutral" |
| VTubeStudio.Studio.Initialize | plugins/core_plugins/vtube_studio.py:26-43 | true, starting the websocket thread only when the integration is enabled |
| VTubeStudio.Studio.Connect | plugins/core_plugins/vtube_studio.py:45-58 | a successful connection gives a websocket and changes nothing else |
| VTubeStudio.Studio.Authenticate | plugins/core_plugins/vtube_studio.py:62-106 | the token is requested; only a token reply carrying a token leads to the second request, and only a second reply saying `authenticated` sets the flag |
| VTubeStudio.Studio.SetExpression | plugins/core_plugins/vtube_studio.py:135-171 | without authentication or a websocket nothing happens; otherwise the mapped expression is activated and the unmapped name becomes current |
| VTubeStudio.Studio.TriggerHotkey | plugins/core_plugins/vtube_studio.py:173-192 | the hotkey request is sent only when authenticated with a websocket |
| VTubeStudio.Studio.OnMessageSent | plugins/core_plugins/vtube_studio.py:204-219 | only an AI message at intensity above 0.3, once authenticated, activates the expression of its primary emotion |
| PiperTts.Spoken | plugins/core_plugins/piper_tts.py:172 | the consumer speaks no empty text and no more texts than it takes |
| PiperTts.SpokenAppend | plugins/core_plugins/piper_tts.py:163-178 | speaking a concatenation speaks each part in turn |
| PiperTts.SpokenIsQueued | plugins/core_plugins/piper_tts.py:163-178 | non-empty queued texts are spoken exactly, in queue order |
| PiperTts.SpeaksNonEmpty | plugins/core_plugins/piper_tts.py:186-187 | a message that passes the gate is not empty, so it is spoken |
| PiperTts.GateThenQueue | plugins/core_plugins/piper_tts.py:158-194 | the consumer speaks exactly the AI messages that passed the gate, in the order they were sent |
| PiperTts.Admitted | plugins/core_plugins/piper_tts.py:180-194 | the gate queues no more messages than it is offered |
| PiperTts.AdmittedPass | plugins/core_plugins/piper_tts.py:180-194 | every queued message passed the gate and is not empty |
| PiperTts.PaddedShortReplySilent | plugins/core_plugins/piper_tts.py:186-187 | a reply that is only "hi" between ideographic spaces is too short once stripped, so it is not queued |
| Text.WordLenOf | memory/memory_manager.py:22 | a run of non-space characters ended by whitespace or the end of the text has its own length |
| Text.WordFirst | memory/memory_manager.py:22 | such a run is the first word of `split()` |
| Text.TwoWords | memory/vector_db.py:63 | two words around one whitespace character split into exactly those two |
| Text.NoBreakSpaceSplits | memory/vector_db.py:63 | a no-break space separates words, as `"hello\u00a0world".split()` does |
| Text.LowerLatin1Word | memory/memory_manager.py:113-118 | Latin-1 capitals fold: "CAFÉ" lowers to "café" |
| Text.IdeographicSpacesStrip | plugins/core_plugins/piper_tts.py:186 | `strip()` removes ideographic spaces from both ends |
| PiperTts.Tts.constructor | plugins/core_plugins/piper_tts.py:21-28 | an enabled plugin named "piper_tts" with no voice, no temporary directory, an empty queue and processing on |
| PiperTts.Tts.Initialize | plugins/core_plugins/piper_tts.py:36-74 | true when disabled; false without the Piper package or a voice; otherwise the voice, a temporary directory and a running consumer |
| PiperTts.Tts.TextToSpeech | plugins/core_plugins/piper_tts.py:97-118 | None without a voice or when synthesis fails; otherwise the given file or `tts_<hash % 10000>.wav` in the temporary directory |
| PiperTts.Tts.GetVoiceInfo | plugins/core_plugins/piper_tts.py:196-206 | `{}` exactly when no voice is loaded, otherwise the voice's attributes with their defaults and `available` true |
| PiperTts.Tts.QueueSpeech | plugins/core_plugins/piper_tts.py:158-161 | the text joins the back of the queue, which is otherwise unchanged |
| PiperTts.Tts.OnMessageSent | plugins/core_plugins/piper_tts.py:180-194 | queued only when enabled, of type "ai", at least five characters once stripped, and with responses spoken |
| PiperTts.Tts.ProcessStep | plugins/core_plugins/piper_tts.py:165-174 | the oldest text leaves the queue and is spoken when not empty; an empty queue yields nothing |
| PiperTts.Tts.ProcessAudioQueue | plugins/core_plugins/piper_tts.py:163-178 | while processing is on, the first `n` queued texts leave the queue and are spoken in queue order |
| PiperTts.Tts.Cleanup | plugins/core_plugins/piper_tts.py:208-212 | the consumer is told to stop; the queue is left alone |

## Left out

- **File I/O.** The model does not cover:
  - saving the configuration, the character sheet or the embedding index;
  - the JSON and YAML helpers of utils/helpers.py.

  Loading is modelled only by its outcome: missing, loaded contents, or unreadable.
- **Wall-clock time.** `datetime.now()` and `format_timestamp` are replaced by clock readings
  passed as parameters.
- **Floating point.** Scores and intensities are exact `real`s, with no IEEE rounding.
- **Cosine similarity.**
  - Its value needs a square root, so it is a function field `ratio` of the index. Only its
    zero-norm guard is concrete.
  - `np.mean` is the exact mean.
  - `f"{v:.1f}"` is a formatting parameter `fmt`.
- **Set iteration order.** `list(set)` and the word order of `_generate_embedding` follow Python's
  set order. The model leaves that order unspecified: some enumeration of the distinct members.
- **Randomness.** `random.choice` in `_get_base_response` is modelled only as membership of the
  chosen template list.
- **The language-model client.** ai_core/ollama_client.py is a network wrapper and is not part of
  this model.
- **`process_message`.** The orchestration as a whole depends on the language model, the plugins
  and logging. Only its helpers and its history trimming are modelled
  (`Engine.AIEngine.RecordExchange`).
- **Status reports.** `get_status`, `get_integration_status` and `shutdown` of the engine only
  gather values from other components.
- **Character emotional state.** `get_emotional_state` of the character manager provides the
  initial secondaries of the engine, which the constructor takes as a parameter, keyed by emotion
  (see `Engine.AIEngine.constructor` below).
- **Plugin discovery.** The importlib/inspect discovery in `load_plugin` is not modelled. Each
  load is given the plugin object the module produced, or none, and what `initialize()`
  returned. An unload is told whether `cleanup()` raised.
- **Broadcasts.** The three broadcasts share one loop, `PluginManager.Manager.Broadcast`. It
  returns the plugins whose hook is called. The hooks themselves are not dispatched, because the
  model has no plugin subclasses.
- **Plugin metadata.** `get_version` and the integrations' own `get_config_schema` tables are
  constant dictionaries.
- **Discord.**
  - The Discord client, its thread and its event loop are not modelled.
  - The bot's user id and the engine's reply are parameters.
  - The broadcasts and the error reply of `handle_message` are not modelled.
  - A `channel_id` setting that is not an integer is an `Unparsable` channel, where `int()` raises.
- **VTube Studio.**
  - `handle_message`, the message loop, `run_websocket` and `cleanup` of the websocket are not
    modelled.
  - The websocket is a `connected` flag plus the list of requests sent.
  - VTube Studio's replies are parameters.
  - `on_message_sent` schedules its request on the event loop; the model sends it at once.
- **Piper TTS.**
  - Voice loading, synthesis, audio playback (`speak_text`, `play_audio`, `_get_voice`), the
    temporary directory and `hash` are parameters or not modelled.
  - The queue's lock and the consumer's sleep are not modelled.
  - The consumer thread runs a given number of turns, `PiperTts.Tts.ProcessAudioQueue`.
- Text.Lower: folds only the capitals whose lower case is one character at a fixed distance:
  ASCII, Latin-1, basic Greek and Cyrillic. The model keeps these as they are, except where noted:
  - the Latin Extended-A and Extended-B capitals, such as Ā, Ł and Ÿ;
  - the Latin Extended Additional capitals;
  - the accented Greek capitals, such as Ά, and the Cyrillic capitals after Я, such as Ѣ;
  - the capitals of every other script (Armenian, Georgian, Cherokee, Deseret and so on);
  - Σ at the end of a word, which Python lowers to ς by the final-sigma rule (the model gives σ);
  - lowerings to several characters, such as that of 'İ'.
- Engine.AIEngine.constructor: takes the base emotions already keyed by emotion. In Python,
  `get_emotional_state` returns the sheet's `emotions.emotional_range` keyed by strings. So
  `_get_emotional_context` raises AttributeError on `.value` for a base emotion above 0.3, until
  the first shift or reset replaces the secondaries. The model does not capture that failure.
- PiperTts.Tts.TextToSpeech: with a voice but no temporary directory, Python's `Path(None)` raises
  TypeError, while the model names the file under "/". `Initialize` only ever loads a voice
  together with a directory, so this state is not reached through the modelled operations.
- **Glue and UI.** The web UI, the command-line plugin, main.py and logging are not part of this
  model.
