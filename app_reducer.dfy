/** The application's state machine (App.tsx): the initial state and the
    reducer that maps a state and an intent to the next state. */
module AppReducer {
  import opened Wrappers
  import opened Types

  datatype AppState = AppState(
    prompt: string,
    isGenerating: bool,
    history: seq<SoundEntity>,
    customPresets: seq<SoundPreset>,
    selectedSoundId: Option<string>,
    isPlaying: bool,
    error: Option<string>,
    analyzerData: Option<seq<Byte>>)

  /** The intents, one constructor per `IntentType`, with their payloads. */
  datatype Action =
    | UpdatePrompt(text: string)
    | GenerateSound
    | GenerationSuccess(sound: SoundEntity)
    | GenerationFailure(message: string)
    | SelectSound(id: string)
    | PlaySound(id: string)
    | StopSound
    | UpdateAnalyzer(data: seq<Byte>)
    | DeleteSound(id: string)
    | LoadPreset(sound: SoundEntity)
    | SaveCustomPreset(preset: SoundPreset)
    | DeleteCustomPreset(id: string)

  /** The state the application starts in: nothing typed, nothing
      generated, nothing selected or playing, no error. */
  function InitialState(): (s: AppState)
    ensures s.prompt == [] && s.history == [] && s.customPresets == []
    ensures !s.isGenerating && !s.isPlaying
    ensures s.selectedSoundId.None? && s.error.None? && s.analyzerData.None?
  {
    AppState("", false, [], [], None, false, None, None)
  }

  /** `history.filter(s => s.id !== id)`: the history without the entries
      carrying `id`, the others kept in order. */
  function Without(history: seq<SoundEntity>, id: string): (r: seq<SoundEntity>)
    ensures |r| <= |history|
    ensures forall e :: e in r <==> e in history && e.id != id
  {
    if history == [] then []
    else if history[0].id != id then [history[0]] + Without(history[1..], id)
    else Without(history[1..], id)
  }

  /** The reducer. Intents it has no case for leave the state as it is. */
  function Reduce(s: AppState, a: Action): (r: AppState)
    ensures r.customPresets == s.customPresets
    ensures r.history == s.history || (a.GenerationSuccess? && r.history == [a.sound] + s.history)
            || (a.DeleteSound? && r.history == Without(s.history, a.id))
    ensures r.selectedSoundId != s.selectedSoundId ==>
              a.GenerationSuccess? || a.SelectSound? || a.PlaySound? || a.DeleteSound?
  {
    match a
    case UpdatePrompt(text) => s.(prompt := text)
    case GenerateSound => s.(isGenerating := true, error := None)
    case GenerationSuccess(sound) =>
      s.(isGenerating := false, history := [sound] + s.history, selectedSoundId := Some(sound.id))
    case GenerationFailure(message) => s.(isGenerating := false, error := Some(message))
    case SelectSound(id) => s.(selectedSoundId := Some(id), error := None)
    case PlaySound(id) => s.(isPlaying := true, selectedSoundId := Some(id))
    case StopSound => s.(isPlaying := false, analyzerData := None)
    case UpdateAnalyzer(data) => s.(analyzerData := Some(data))
    case DeleteSound(id) =>
      s.(history := Without(s.history, id),
         selectedSoundId := if s.selectedSoundId == Some(id) then None else s.selectedSoundId)
    case _ => s
  }

  // ---------------------------------------------------------------------
  // Deleting from the history
  // ---------------------------------------------------------------------

  /** Filtering distributes over concatenation. */
  lemma {:induction false} WithoutAppend(a: seq<SoundEntity>, b: seq<SoundEntity>, id: string)
    ensures Without(a + b, id) == Without(a, id) + Without(b, id)
  {
    if a == [] {
      assert a + b == b;
    } else {
      assert (a + b)[1..] == a[1..] + b;
      WithoutAppend(a[1..], b, id);
    }
  }

  /** Filtering twice by the same id is filtering once. */
  lemma {:induction false} WithoutIdempotent(history: seq<SoundEntity>, id: string)
    ensures Without(Without(history, id), id) == Without(history, id)
  {
    if history != [] {
      WithoutIdempotent(history[1..], id);
      if history[0].id != id {
        var rest := Without(history[1..], id);
        assert ([history[0]] + rest)[1..] == rest;
      }
    }
  }

  /** A history with no entry carrying `id` is left as it is. */
  lemma {:induction false} WithoutAbsent(history: seq<SoundEntity>, id: string)
    requires forall e :: e in history ==> e.id != id
    ensures Without(history, id) == history
  {
    if history != [] {
      assert history[0] in history;
      WithoutAbsent(history[1..], id);
      assert [history[0]] + history[1..] == history;
    }
  }

  /** The filter drops exactly as many entries as carry `id`. */
  lemma {:induction false} WithoutCount(history: seq<SoundEntity>, id: string)
    ensures |Without(history, id)| == |history| - Matching(history, id)
  {
    if history != [] {
      WithoutCount(history[1..], id);
    }
  }

  /** How many entries carry `id`. */
  function Matching(history: seq<SoundEntity>, id: string): (n: nat)
    ensures n <= |history|
    ensures n == 0 <==> forall e :: e in history ==> e.id != id
  {
    if history == [] then 0
    else (if history[0].id == id then 1 else 0) + Matching(history[1..], id)
  }

  // ---------------------------------------------------------------------
  // What each intent does
  // ---------------------------------------------------------------------

  /** A successful generation puts the new sound at the head of the
      history (the rest unchanged and in order), selects it and ends the
      generating state. */
  lemma GenerationSuccessPrepends(s: AppState, sound: SoundEntity)
    ensures var t := Reduce(s, GenerationSuccess(sound));
      |t.history| == |s.history| + 1 && t.history[0] == sound && t.history[1..] == s.history &&
      t.selectedSoundId == Some(sound.id) && !t.isGenerating
  {
    var t := Reduce(s, GenerationSuccess(sound));
    assert t.history[1..] == s.history;
  }

  /** Deleting removes every entry with that id and keeps the others in
      order; the selection is cleared exactly when it was the deleted id. */
  lemma DeleteSoundEffect(s: AppState, id: string)
    ensures var t := Reduce(s, DeleteSound(id));
      (forall e :: e in t.history <==> e in s.history && e.id != id) &&
      |t.history| == |s.history| - Matching(s.history, id) &&
      (t.selectedSoundId.None? <==> s.selectedSoundId.None? || s.selectedSoundId == Some(id)) &&
      (s.selectedSoundId != Some(id) ==> t.selectedSoundId == s.selectedSoundId)
  {
    var t := Reduce(s, DeleteSound(id));
    assert t.history == Without(s.history, id);
    assert t.selectedSoundId == if s.selectedSoundId == Some(id) then None else s.selectedSoundId;
    WithoutCount(s.history, id);
  }

  /** Generating a sound and then deleting it restores the history it was
      added to, provided no older entry shared its id, and leaves nothing
      selected. */
  lemma DeleteUndoesGeneration(s: AppState, sound: SoundEntity)
    requires forall e :: e in s.history ==> e.id != sound.id
    ensures var t := Reduce(Reduce(s, GenerationSuccess(sound)), DeleteSound(sound.id));
      t.history == s.history && t.selectedSoundId.None?
  {
    assert ([sound] + s.history)[1..] == s.history;
    WithoutAbsent(s.history, sound.id);
  }

  /** The flag-setting intents. */
  lemma FlagIntents(s: AppState, id: string, message: string)
    ensures Reduce(s, GenerateSound).isGenerating && Reduce(s, GenerateSound).error.None?
    ensures !Reduce(s, GenerationFailure(message)).isGenerating
    ensures Reduce(s, GenerationFailure(message)).error == Some(message)
    ensures !Reduce(s, StopSound).isPlaying && Reduce(s, StopSound).analyzerData.None?
    ensures Reduce(s, PlaySound(id)).isPlaying && Reduce(s, PlaySound(id)).selectedSoundId == Some(id)
    ensures Reduce(s, SelectSound(id)).selectedSoundId == Some(id) && Reduce(s, SelectSound(id)).error.None?
  {
  }

  /** The fields of the state, to say which ones an intent may touch. */
  datatype Field =
    | Prompt | IsGenerating | History | CustomPresets
    | SelectedSoundId | IsPlaying | Error | AnalyzerData

  /** The fields each reducer case writes. */
  function Written(a: Action): set<Field>
  {
    match a
    case UpdatePrompt(_) => {Prompt}
    case GenerateSound => {IsGenerating, Error}
    case GenerationSuccess(_) => {IsGenerating, History, SelectedSoundId}
    case GenerationFailure(_) => {IsGenerating, Error}
    case SelectSound(_) => {SelectedSoundId, Error}
    case PlaySound(_) => {IsPlaying, SelectedSoundId}
    case StopSound => {IsPlaying, AnalyzerData}
    case UpdateAnalyzer(_) => {AnalyzerData}
    case DeleteSound(_) => {History, SelectedSoundId}
    case _ => {}
  }

  /** `s` and `t` agree on every field outside `fields`. */
  predicate SameExcept(s: AppState, t: AppState, fields: set<Field>)
  {
    (Prompt !in fields ==> t.prompt == s.prompt) &&
    (IsGenerating !in fields ==> t.isGenerating == s.isGenerating) &&
    (History !in fields ==> t.history == s.history) &&
    (CustomPresets !in fields ==> t.customPresets == s.customPresets) &&
    (SelectedSoundId !in fields ==> t.selectedSoundId == s.selectedSoundId) &&
    (IsPlaying !in fields ==> t.isPlaying == s.isPlaying) &&
    (Error !in fields ==> t.error == s.error) &&
    (AnalyzerData !in fields ==> t.analyzerData == s.analyzerData)
  }

  /** Every intent leaves the fields it does not name as they were; no
      intent touches the custom presets. */
  lemma NothingElseChanges(s: AppState, a: Action)
    ensures SameExcept(s, Reduce(s, a), Written(a))
    ensures CustomPresets !in Written(a)
  {
  }

  /** The intents without a reducer case return the state unchanged. */
  lemma UnhandledIntents(s: AppState, a: Action)
    requires a.LoadPreset? || a.SaveCustomPreset? || a.DeleteCustomPreset?
    ensures Reduce(s, a) == s
  {
  }

  /** Every intent but a successful generation is idempotent: applying it a
      second time changes nothing. A second success would add the sound to
      the history again. */
  lemma IdempotentIntents(s: AppState, a: Action)
    requires !a.GenerationSuccess?
    ensures Reduce(Reduce(s, a), a) == Reduce(s, a)
  {
    if a.DeleteSound? {
      WithoutIdempotent(s.history, a.id);
    }
  }

  /** A second successful generation does add a second entry. */
  lemma SuccessNotIdempotent(s: AppState, sound: SoundEntity)
    ensures |Reduce(Reduce(s, GenerationSuccess(sound)), GenerationSuccess(sound)).history| == |s.history| + 2
  {
  }
}
