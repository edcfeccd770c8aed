/** The settings reducer of SettingsPanel.tsx: one `settings` record in a
    single state cell, rewritten by `handleToggle` and `handleSelect`. */
module Settings {

  datatype Key =
    | Notifications | DarkMode | AutoTranslate | SoundEffects | PrivacyMode
    | Language | DailyGoal | Difficulty

  /** A field's value, seen independently of the field's name. */
  datatype Value = Flag(on: bool) | Text(text: string) | Number(n: int)

  datatype SettingsRecord = SettingsRecord(
    notifications: bool,
    darkMode: bool,
    autoTranslate: bool,
    soundEffects: bool,
    privacyMode: bool,
    language: string,
    dailyGoal: int,
    difficulty: string)

  const InitialSettings: SettingsRecord :=
    SettingsRecord(true, false, true, true, false, "English", 15, "Intermediate")

  /** The five boolean fields. */
  predicate IsFlagKey(k: Key)
  {
    k.Notifications? || k.DarkMode? || k.AutoTranslate? || k.SoundEffects? || k.PrivacyMode?
  }

  /** `settings[key]`. */
  function Get(s: SettingsRecord, k: Key): (r: Value)
    ensures r.Flag? <==> IsFlagKey(k)
    ensures r.Text? <==> k == Language || k == Difficulty
    ensures r.Number? <==> k == DailyGoal
  {
    match k
    case Notifications => Flag(s.notifications)
    case DarkMode => Flag(s.darkMode)
    case AutoTranslate => Flag(s.autoTranslate)
    case SoundEffects => Flag(s.soundEffects)
    case PrivacyMode => Flag(s.privacyMode)
    case Language => Text(s.language)
    case DailyGoal => Number(s.dailyGoal)
    case Difficulty => Text(s.difficulty)
  }

  /** Two records with the same value at every key are the same record. */
  lemma SameAtEveryKey(a: SettingsRecord, b: SettingsRecord)
    requires forall k :: Get(a, k) == Get(b, k)
    ensures a == b
  {
    assert Get(a, Notifications) == Get(b, Notifications);
    assert Get(a, DarkMode) == Get(b, DarkMode);
    assert Get(a, AutoTranslate) == Get(b, AutoTranslate);
    assert Get(a, SoundEffects) == Get(b, SoundEffects);
    assert Get(a, PrivacyMode) == Get(b, PrivacyMode);
    assert Get(a, Language) == Get(b, Language);
    assert Get(a, DailyGoal) == Get(b, DailyGoal);
    assert Get(a, Difficulty) == Get(b, Difficulty);
  }

  /** `handleSelect` receives a string or a number; the model pairs the
      string fields with strings and `dailyGoal` with a number. */
  predicate Fits(k: Key, v: Value)
  {
    match k
    case Language => v.Text?
    case Difficulty => v.Text?
    case DailyGoal => v.Number?
    case _ => false
  }

  /** The updater of `handleToggle`: negates field `k`, nothing else changes. */
  function Toggle(s: SettingsRecord, k: Key): (r: SettingsRecord)
    requires IsFlagKey(k)
    ensures Get(r, k) == Flag(!Get(s, k).on)
    ensures forall j :: j != k ==> Get(r, j) == Get(s, j)
  {
    match k
    case Notifications => s.(notifications := !s.notifications)
    case DarkMode => s.(darkMode := !s.darkMode)
    case AutoTranslate => s.(autoTranslate := !s.autoTranslate)
    case SoundEffects => s.(soundEffects := !s.soundEffects)
    case PrivacyMode => s.(privacyMode := !s.privacyMode)
  }

  /** The updater of `handleSelect`: field `k` becomes `v`, nothing else changes. */
  function Select(s: SettingsRecord, k: Key, v: Value): (r: SettingsRecord)
    requires Fits(k, v)
    ensures Get(r, k) == v
    ensures forall j :: j != k ==> Get(r, j) == Get(s, j)
  {
    match k
    case Language => s.(language := v.text)
    case Difficulty => s.(difficulty := v.text)
    case DailyGoal => s.(dailyGoal := v.n)
  }

  /** Toggling the same field twice restores the record. */
  lemma ToggleTwiceRestores(s: SettingsRecord, k: Key)
    requires IsFlagKey(k)
    ensures Toggle(Toggle(s, k), k) == s
  {
    var t := Toggle(Toggle(s, k), k);
    forall j ensures Get(t, j) == Get(s, j) {
    }
    SameAtEveryKey(t, s);
  }

  /** Selecting the same value twice is the same as selecting it once. */
  lemma SelectIdempotent(s: SettingsRecord, k: Key, v: Value)
    requires Fits(k, v)
    ensures Select(Select(s, k, v), k, v) == Select(s, k, v)
  {
    var once := Select(s, k, v);
    var twice := Select(once, k, v);
    forall j ensures Get(twice, j) == Get(once, j) {
    }
    SameAtEveryKey(twice, once);
  }

  // ----- what the rendered controls can do -----

  const LanguageOptions: seq<string> := ["English", "Spanish", "French", "German", "Chinese", "Japanese"]
  const DailyGoalOptions: seq<int> := [5, 10, 15, 30, 60]
  const DifficultyOptions: seq<string> := ["Beginner", "Intermediate", "Advanced", "Native"]

  /** The six languages, each listed once. */
  lemma LanguageOptionsDistinct()
    ensures |LanguageOptions| == 6
    ensures forall i, j :: 0 <= i < j < |LanguageOptions| ==> LanguageOptions[i] != LanguageOptions[j]
  {
  }

  /** The five daily goals, in increasing order of minutes. */
  lemma DailyGoalOptionsIncreasing()
    ensures |DailyGoalOptions| == 5
    ensures forall i, j :: 0 <= i < j < |DailyGoalOptions| ==> 0 < DailyGoalOptions[i] < DailyGoalOptions[j]
  {
  }

  /** The four difficulty levels, each listed once. */
  lemma DifficultyOptionsDistinct()
    ensures |DifficultyOptions| == 4
    ensures forall i, j :: 0 <= i < j < |DifficultyOptions| ==> DifficultyOptions[i] != DifficultyOptions[j]
  {
  }

  /** The fields that have a toggle switch; `autoTranslate` has none. */
  const ToggleSwitches: seq<Key> := [Notifications, DarkMode, SoundEffects, PrivacyMode]

  datatype SettingsAction = ToggleAction(key: Key) | SelectAction(key: Key, value: Value)

  /** An action that one of the rendered controls can perform. */
  predicate Rendered(a: SettingsAction)
  {
    match a
    case ToggleAction(k) => k in ToggleSwitches
    case SelectAction(k, v) =>
      || (k == Language && v.Text? && v.text in LanguageOptions)
      || (k == DailyGoal && v.Number? && v.n in DailyGoalOptions)
      || (k == Difficulty && v.Text? && v.text in DifficultyOptions)
  }

  function Apply(s: SettingsRecord, a: SettingsAction): SettingsRecord
    requires Rendered(a)
  {
    match a
    case ToggleAction(k) => Toggle(s, k)
    case SelectAction(k, v) => Select(s, k, v)
  }

  function Run(s: SettingsRecord, actions: seq<SettingsAction>): SettingsRecord
    requires forall i :: 0 <= i < |actions| ==> Rendered(actions[i])
    decreases |actions|
  {
    if actions == [] then s else Run(Apply(s, actions[0]), actions[1..])
  }

  /** Each select-backed field holds one of its rendered options. */
  predicate WithinOptions(s: SettingsRecord)
  {
    s.language in LanguageOptions && s.dailyGoal in DailyGoalOptions && s.difficulty in DifficultyOptions
  }

  /** The initial record, read field by field. */
  lemma InitialSettingsValues()
    ensures forall k :: IsFlagKey(k) ==> (Get(InitialSettings, k) == Flag(true) <==> k in {Notifications, AutoTranslate, SoundEffects})
    ensures Get(InitialSettings, Language) == Text("English")
    ensures Get(InitialSettings, DailyGoal) == Number(15)
    ensures Get(InitialSettings, Difficulty) == Text("Intermediate")
  {
  }

  lemma InitialWithinOptions()
    ensures WithinOptions(InitialSettings)
  {
  }

  /** Through the rendered controls, the select-backed fields never leave
      their option lists, and `autoTranslate` never changes. */
  lemma {:induction false} RunKeepsOptions(s: SettingsRecord, actions: seq<SettingsAction>)
    requires forall i :: 0 <= i < |actions| ==> Rendered(actions[i])
    requires WithinOptions(s)
    ensures WithinOptions(Run(s, actions))
    ensures Run(s, actions).autoTranslate == s.autoTranslate
    decreases |actions|
  {
    if actions != [] {
      var next := Apply(s, actions[0]);
      assert Get(next, AutoTranslate) == Get(s, AutoTranslate);
      RunKeepsOptions(next, actions[1..]);
    }
  }

  /** The component's single state cell and its two handlers. */
  class SettingsPanel {
    var settings: SettingsRecord

    constructor ()
      ensures settings == InitialSettings
    {
      settings := InitialSettings;
    }

    method HandleToggle(k: Key)
      requires IsFlagKey(k)
      modifies this
      ensures settings == Toggle(old(settings), k)
    {
      settings := Toggle(settings, k);
    }

    method HandleSelect(k: Key, v: Value)
      requires Fits(k, v)
      modifies this
      ensures settings == Select(old(settings), k, v)
    {
      settings := Select(settings, k, v);
    }
  }

}
