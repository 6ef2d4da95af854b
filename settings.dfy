/**
 * The settings page: a flat configuration record, merged shallowly with what is
 * stored under 'app-settings' on load and with an imported file, stored whole on
 * save, reset to its defaults, and edited one emergency contact at a time.
 */
module Settings {
  import opened Wrappers

  /** The configuration record. */
  datatype SettingsConfig = SettingsConfig(
    language: string,
    voiceEnabled: bool,
    voiceSpeed: real,
    autoSave: bool,
    emergencyContacts: seq<string>,
    customPrompts: string,
    darkMode: bool,
    notifications: bool,
    aiModel: string)

  /**
   * A parsed JSON object as far as the configuration goes: each of its keys is
   * present or absent.
   */
  datatype SettingsPatch = SettingsPatch(
    language: Option<string>,
    voiceEnabled: Option<bool>,
    voiceSpeed: Option<real>,
    autoSave: Option<bool>,
    emergencyContacts: Option<seq<string>>,
    customPrompts: Option<string>,
    darkMode: Option<bool>,
    notifications: Option<bool>,
    aiModel: Option<string>)

  /** The outcome of reading the file chosen for import. */
  datatype ImportFile = NoFile | Unparsable | Parsed(patch: SettingsPatch)

  /** The notice shown after an import attempt. */
  datatype ImportNotice = Imported | ImportFailed

  /** The state the page starts in. */
  const InitialSettings: SettingsConfig :=
    SettingsConfig("en", true, 1.0, true, ["", "", ""], "", false, true, "gpt-4")

  /** The record `resetSettings` writes. */
  const DefaultSettings: SettingsConfig :=
    SettingsConfig("en", true, 1.0, true, ["", "", ""], "", false, true, "gpt-4")

  /** An object with none of the configuration keys. */
  const NoKeys: SettingsPatch := SettingsPatch(None, None, None, None, None, None, None, None, None)

  /** `{ ...s, ...p }`: every key present in `p` overrides, every other field is kept. */
  function Merge(s: SettingsConfig, p: SettingsPatch): (r: SettingsConfig)
    ensures r.language == p.language.GetOr(s.language)
    ensures r.voiceEnabled == p.voiceEnabled.GetOr(s.voiceEnabled)
    ensures r.voiceSpeed == p.voiceSpeed.GetOr(s.voiceSpeed)
    ensures r.autoSave == p.autoSave.GetOr(s.autoSave)
    ensures r.emergencyContacts == p.emergencyContacts.GetOr(s.emergencyContacts)
    ensures r.customPrompts == p.customPrompts.GetOr(s.customPrompts)
    ensures r.darkMode == p.darkMode.GetOr(s.darkMode)
    ensures r.notifications == p.notifications.GetOr(s.notifications)
    ensures r.aiModel == p.aiModel.GetOr(s.aiModel)
  {
    SettingsConfig(
      p.language.GetOr(s.language),
      p.voiceEnabled.GetOr(s.voiceEnabled),
      p.voiceSpeed.GetOr(s.voiceSpeed),
      p.autoSave.GetOr(s.autoSave),
      p.emergencyContacts.GetOr(s.emergencyContacts),
      p.customPrompts.GetOr(s.customPrompts),
      p.darkMode.GetOr(s.darkMode),
      p.notifications.GetOr(s.notifications),
      p.aiModel.GetOr(s.aiModel))
  }

  /** The JSON object of a whole record: every key present. */
  function AsPatch(s: SettingsConfig): (p: SettingsPatch)
    ensures p.language.Some? && p.voiceEnabled.Some? && p.voiceSpeed.Some? && p.autoSave.Some?
    ensures p.emergencyContacts.Some? && p.customPrompts.Some? && p.darkMode.Some?
    ensures p.notifications.Some? && p.aiModel.Some?
  {
    SettingsPatch(Some(s.language), Some(s.voiceEnabled), Some(s.voiceSpeed), Some(s.autoSave),
      Some(s.emergencyContacts), Some(s.customPrompts), Some(s.darkMode), Some(s.notifications),
      Some(s.aiModel))
  }

  /** Merging an object without configuration keys changes nothing. */
  lemma MergeNoKeys(s: SettingsConfig)
    ensures Merge(s, NoKeys) == s
  {
  }

  /** Merging the same object twice is merging it once. */
  lemma MergeIdempotent(s: SettingsConfig, p: SettingsPatch)
    ensures Merge(Merge(s, p), p) == Merge(s, p)
  {
  }

  /** Merging a whole record's object replaces everything, whatever the current state. */
  lemma MergeWholeRecord(s: SettingsConfig, t: SettingsConfig)
    ensures Merge(s, AsPatch(t)) == t
  {
  }

  /** `saveSettings`: the value stored under 'app-settings' is the whole current record. */
  function SaveSettings(s: SettingsConfig): (stored: Option<SettingsPatch>)
    ensures stored.Some? && Merge(InitialSettings, stored.value) == s
  {
    Some(AsPatch(s))
  }

  /** `loadSettings`: with a stored object, a shallow merge over the current record; without one, no change. */
  function LoadSettings(s: SettingsConfig, stored: Option<SettingsPatch>): (r: SettingsConfig)
    ensures stored.None? ==> r == s
    ensures stored.Some? ==> r == Merge(s, stored.value)
  {
    match stored
    case None => s
    case Some(p) => Merge(s, p)
  }

  /** What was saved is what is loaded, over any current record. */
  lemma SaveThenLoad(s: SettingsConfig, t: SettingsConfig)
    ensures LoadSettings(s, SaveSettings(t)) == t
  {
  }

  /**
   * `importSettings`: no file chosen changes nothing and shows nothing; a file
   * that does not parse changes nothing and reports failure; a parsed object is
   * merged shallowly.
   */
  function ImportSettings(s: SettingsConfig, file: ImportFile): (r: (SettingsConfig, Option<ImportNotice>))
    ensures file.NoFile? ==> r == (s, None)
    ensures file.Unparsable? ==> r == (s, Some(ImportFailed))
    ensures file.Parsed? ==> r == (Merge(s, file.patch), Some(Imported))
  {
    match file
    case NoFile => (s, None)
    case Unparsable => (s, Some(ImportFailed))
    case Parsed(p) => (Merge(s, p), Some(Imported))
  }

  /** Importing an exported record restores it exactly. */
  lemma ImportOfExportRestores(s: SettingsConfig, t: SettingsConfig)
    ensures ImportSettings(s, Parsed(AsPatch(t))) == (t, Some(Imported))
  {
  }

  /** `resetSettings`: the default record, and the stored value removed. */
  function ResetSettings(): (r: (SettingsConfig, Option<SettingsPatch>))
    ensures r.0 == InitialSettings && r.1 == None
    ensures |r.0.emergencyContacts| == 3
  {
    (DefaultSettings, None)
  }

  /** `updateEmergencyContact`: one contact replaced, the list's length and every other field kept. */
  function UpdateEmergencyContact(s: SettingsConfig, index: nat, value: string): (r: SettingsConfig)
    requires index < |s.emergencyContacts|
    ensures |r.emergencyContacts| == |s.emergencyContacts|
    ensures r.emergencyContacts[index] == value
    ensures forall j :: 0 <= j < |s.emergencyContacts| && j != index ==> r.emergencyContacts[j] == s.emergencyContacts[j]
    ensures r.(emergencyContacts := s.emergencyContacts) == s
  {
    var contacts := s.emergencyContacts;
    s.(emergencyContacts := contacts[index := value])
  }
}
