/** The settings service (`src/services/settingsService.ts`): one stored
    record under the key `insurance-voice-agent-settings`, read with a
    top-level merge over the defaults, written whole, and the test of
    whether the telephony credentials are filled in. */
module Settings {
  import opened Js

  /** The telephony credentials (`src/types/settings.ts`). */
  datatype TwilioSettings = TwilioSettings(accountSid: string, authToken: string, phoneNumber: string, voiceUrl: string)

  /** The value under one top-level key of the stored record: a settings
      object, or any other JSON value (kept as its text). */
  datatype SettingValue = TwilioObject(twilio: TwilioSettings) | OtherJson(text: string)

  /** A settings object, by its top-level keys. */
  type AppSettings = map<string, SettingValue>

  /** The content of the storage slot: text that does not parse as JSON
      (or is empty), or a parsed object. A JSON value that is not an object
      is taken as an empty object. That is exact for `null`, numbers and
      booleans; a spread string or array would add index keys, which this
      model leaves out. */
  datatype Stored = Unreadable | JsonObject(fields: AppSettings)

  const SettingsKey := "insurance-voice-agent-settings"

  const EmptyTwilio := TwilioSettings("", "", "", "")

  const DefaultSettings: AppSettings := map["twilio" := TwilioObject(EmptyTwilio)]

  /** `getSettings()` on the given slot content. */
  function Load(slot: Option<Stored>): (s: AppSettings)
    ensures "twilio" in s
    ensures slot.None? || slot == Some(Unreadable) ==> s == DefaultSettings
    ensures slot.Some? && slot.value.JsonObject? ==>
              && s.Keys == slot.value.fields.Keys + {"twilio"}
              && (forall k :: k in slot.value.fields ==> s[k] == slot.value.fields[k])
              && ("twilio" !in slot.value.fields ==> s["twilio"] == TwilioObject(EmptyTwilio))
  {
    match slot
    case None => DefaultSettings
    case Some(Unreadable) => DefaultSettings
    case Some(JsonObject(fields)) => DefaultSettings + fields
  }

  /** The credentials read from a settings value: a field missing from the
      stored object reads as `undefined`, which behaves as `''` under `||`
      and `!!`. A `twilio` value that is not an object reads as empty
      credentials; for `null` the program throws instead, which this model
      leaves out. */
  function TwilioOf(v: SettingValue): TwilioSettings
  {
    match v
    case TwilioObject(t) => t
    case OtherJson(_) => EmptyTwilio
  }

  /** `isTwilioConfigured()` on given credentials. */
  predicate Configured(t: TwilioSettings)
  {
    t.accountSid != "" && t.authToken != "" && t.phoneNumber != ""
  }

  /** Configured exactly when the account id, token and phone number are
      all non-empty; the voice URL plays no part. */
  lemma ConfiguredIgnoresVoiceUrl(t: TwilioSettings, url: string)
    ensures Configured(t) <==> t.accountSid != "" && t.authToken != "" && t.phoneNumber != ""
    ensures Configured(t.(voiceUrl := url)) == Configured(t)
  {
  }

  /** Nothing stored, or something unreadable, gives the defaults, which
      are not configured. */
  lemma DefaultsNotConfigured(slot: Option<Stored>)
    requires slot.None? || slot == Some(Unreadable)
    ensures TwilioOf(Load(slot)["twilio"]) == EmptyTwilio
    ensures !Configured(TwilioOf(Load(slot)["twilio"]))
  {
  }

  /** The merge is shallow: a stored `twilio` object replaces the default
      one as a whole, whatever fields it leaves empty. */
  lemma StoredTwilioReplacesDefault(fields: AppSettings, t: TwilioSettings)
    requires "twilio" in fields && fields["twilio"] == TwilioObject(t)
    ensures TwilioOf(Load(Some(JsonObject(fields)))["twilio"]) == t
  {
  }

  /** The record `saveTwilioSettings(t)` writes, given the current one. */
  function WithTwilio(current: AppSettings, t: TwilioSettings): (s: AppSettings)
    ensures s.Keys == current.Keys + {"twilio"}
    ensures forall k :: k in current && k != "twilio" ==> s[k] == current[k]
  {
    current["twilio" := TwilioObject(t)]
  }

  /** Saving settings and loading them again gives them back (the defaults
      add nothing to a record that has a `twilio` key). */
  lemma LoadAfterSave(s: AppSettings)
    requires "twilio" in s
    ensures Load(Some(JsonObject(s))) == s
  {
  }

  /** After `saveTwilioSettings(t)`, `getTwilioSettings()` returns `t`, and
      every other top-level key keeps its value. */
  lemma SaveTwilioRoundTrip(slot: Option<Stored>, t: TwilioSettings)
    ensures var after := Load(Some(JsonObject(WithTwilio(Load(slot), t))));
            && TwilioOf(after["twilio"]) == t
            && after.Keys == Load(slot).Keys
            && forall k :: k in Load(slot) && k != "twilio" ==> after[k] == Load(slot)[k]
  {
    LoadAfterSave(WithTwilio(Load(slot), t));
  }

  /** The single storage slot. */
  class SettingsStore {
    var slot: Option<Stored>

    constructor (initial: Option<Stored>)
      ensures slot == initial
    {
      slot := initial;
    }

    /** `getSettings()` */
    function GetSettings(): AppSettings
      reads this
    {
      Load(slot)
    }

    /** `getTwilioSettings()` */
    function GetTwilioSettings(): TwilioSettings
      reads this
    {
      TwilioOf(GetSettings()["twilio"])
    }

    /** `isTwilioConfigured()` */
    predicate IsTwilioConfigured()
      reads this
    {
      Configured(GetTwilioSettings())
    }

    /** `saveSettings(settings)`; `writeFails` says whether the storage
        write throws, which raises 'Failed to save settings' and stores
        nothing. */
    method SaveSettings(settings: AppSettings, writeFails: bool) returns (r: Result<(), string>)
      modifies this
      ensures writeFails ==> r == Failure("Failed to save settings") && slot == old(slot)
      ensures !writeFails ==> r == Success(()) && slot == Some(JsonObject(settings))
    {
      if writeFails {
        return Failure("Failed to save settings");
      }
      slot := Some(JsonObject(settings));
      r := Success(());
    }

    /** `saveTwilioSettings(t)` */
    method SaveTwilioSettings(t: TwilioSettings, writeFails: bool) returns (r: Result<(), string>)
      modifies this
      ensures writeFails ==> r == Failure("Failed to save settings") && slot == old(slot)
      ensures !writeFails ==> r == Success(()) && slot == Some(JsonObject(WithTwilio(old(GetSettings()), t)))
      ensures !writeFails ==> GetTwilioSettings() == t
    {
      var current := GetSettings();
      r := SaveSettings(WithTwilio(current, t), writeFails);
      if !writeFails {
        LoadAfterSave(WithTwilio(current, t));
      }
    }
  }
}
