/**
 * An assistant profile: the model parameters a chat session is started with, merged
 * from the command-line settings under range guards and saved when any was taken.
 *
 * The profile file is abstracted: `Save` appends the profile it would write to
 * `Saved`, and `Create` receives the outcome of reading and deserialising the file.
 */
module AssistantProfile {
  import opened Wrappers
  import opened AssistantSettings

  const DefaultName: string := "default"
  const DefaultModel: string := "gpt-4o"
  const DefaultInstructions: string := "You are a helpful AI assistant. Answer as concisely as possible."
  const DefaultTemperature: real := 0.5
  const DefaultMaxTokens: int := 4096
  const DefaultPromptHistory: int := 5

  /** Largest accepted token budget, exclusive. */
  const TokenLimit: int := 32536

  /** The properties of an `Assistant`. */
  datatype Profile = Profile(
    name: string, model: string, instructions: string,
    temperature: real, maxTokens: int, promptHistory: int, apiKey: string)

  /** A new profile named `name` with the property initialisers. */
  function DefaultProfile(name: string): Profile {
    Profile(name, DefaultModel, DefaultInstructions, DefaultTemperature, DefaultMaxTokens, DefaultPromptHistory, "")
  }

  /** The ranges `UpdateSettings` lets through. */
  predicate InRange(p: Profile) {
    0.0 <= p.temperature <= 1.0 && 1 <= p.maxTokens < TokenLimit && p.promptHistory >= 0
  }

  datatype Merged = Merged(profile: Profile, dirty: bool)

  /**
   * The settings applied to a profile: a string when it is non-empty, a number
   * when it is in range; `dirty` when anything was taken.
   */
  function Merge(p: Profile, s: Options): Merged {
    var takeKey := s.apiKey != "";
    var takeModel := s.model != "";
    var takeInstructions := s.instructions != "";
    var takeTemperature := 0.0 <= s.temperature <= 1.0;
    var takeTokens := 1 <= s.maxTokens < TokenLimit;
    var takeHistory := s.promptHistory >= 0;
    Merged(
      p.(apiKey := if takeKey then s.apiKey else p.apiKey,
         model := if takeModel then s.model else p.model,
         instructions := if takeInstructions then s.instructions else p.instructions,
         temperature := if takeTemperature then s.temperature else p.temperature,
         maxTokens := if takeTokens then s.maxTokens else p.maxTokens,
         promptHistory := if takeHistory then s.promptHistory else p.promptHistory),
      takeKey || takeModel || takeInstructions || takeTemperature || takeTokens || takeHistory)
  }

  class Assistant {
    var Name: string
    var Model: string
    var Instructions: string
    var Temperature: real
    var MaxTokens: int
    var PromptHistory: int
    var APIKey: string
    /** The profiles `Save` has written, oldest first. */
    var Saved: seq<Profile>

    function Snapshot(): Profile
      reads this
    {
      Profile(Name, Model, Instructions, Temperature, MaxTokens, PromptHistory, APIKey)
    }

    /** A fresh profile called `name`. */
    constructor (name: string)
      ensures Snapshot() == DefaultProfile(name) && Saved == []
    {
      Name, Model, Instructions := name, DefaultModel, DefaultInstructions;
      Temperature, MaxTokens, PromptHistory, APIKey := DefaultTemperature, DefaultMaxTokens, DefaultPromptHistory, "";
      Saved := [];
    }

    /** The object deserialisation yields for a stored profile. */
    constructor Loaded(stored: Profile)
      ensures Snapshot() == stored && Saved == []
    {
      Name, Model, Instructions := stored.name, stored.model, stored.instructions;
      Temperature, MaxTokens, PromptHistory, APIKey := stored.temperature, stored.maxTokens, stored.promptHistory, stored.apiKey;
      Saved := [];
    }

    /**
     * The stored profile when one could be read, otherwise a new one with that
     * name, saved at once. `stored` is None when the file is missing, unreadable
     * or deserialises to null.
     */
    static method Create(name: string, stored: Option<Profile>) returns (a: Assistant)
      ensures fresh(a)
      ensures stored.Some? ==> a.Snapshot() == stored.value && a.Saved == []
      ensures stored.None? ==> a.Snapshot() == DefaultProfile(name) && a.Saved == [DefaultProfile(name)]
    {
      if stored.Some? {
        a := new Assistant.Loaded(stored.value);
        return;
      }
      a := new Assistant(name);
      a.Save();
    }

    method Save()
      modifies this`Saved
      ensures Saved == old(Saved) + [Snapshot()]
    {
      Saved := Saved + [Snapshot()];
    }

    /** Takes the usable command-line settings and saves the profile if any was taken. */
    method UpdateSettings(settings: Settings)
      modifies this
      ensures var m := Merge(old(Snapshot()), old(settings.Snapshot()));
              Snapshot() == m.profile && Saved == old(Saved) + (if m.dirty then [m.profile] else [])
    {
      var s := settings.Snapshot();
      ghost var m := Merge(Snapshot(), s);
      var dirty := false;
      if s.apiKey != "" {
        APIKey := s.apiKey;
        dirty := true;
      }
      assert APIKey == m.profile.apiKey;
      if s.model != "" {
        Model := s.model;
        dirty := true;
      }
      assert Model == m.profile.model;
      if s.instructions != "" {
        Instructions := s.instructions;
        dirty := true;
      }
      assert Instructions == m.profile.instructions;
      if 0.0 <= s.temperature && s.temperature <= 1.0 {
        Temperature := s.temperature;
        dirty := true;
      }
      assert Temperature == m.profile.temperature;
      if 1 <= s.maxTokens && s.maxTokens < TokenLimit {
        MaxTokens := s.maxTokens;
        dirty := true;
      }
      assert MaxTokens == m.profile.maxTokens;
      if s.promptHistory >= 0 {
        PromptHistory := s.promptHistory;
        dirty := true;
      }
      assert Snapshot() == m.profile && dirty == m.dirty;
      if dirty {
        Save();
      }
    }
  }
}
