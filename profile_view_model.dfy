/**
 * The settings screen's view model: it mirrors eight fields of the loaded
 * profile for editing and writes them back on save. The profile is held by
 * reference, so saving changes the stored profile itself.
 */
module ProfileViewModels {
  import opened Options
  import opened UserProfiles

  /** The eight editable settings as the profile stores them. */
  datatype StoredSettings = StoredSettings(
    appearanceRaw: string,
    graphName: Option<string>,
    apiToken: Option<string>,
    defaultTag: Option<string>,
    addTimestamp: bool,
    useDailyNotes: bool,
    customLocation: Option<string>,
    customBlock: Option<string>)

  /** The same settings as the screen holds them: the appearance as a case. */
  datatype EditedSettings = EditedSettings(
    appearance: Appearance,
    graphName: Option<string>,
    apiToken: Option<string>,
    defaultTag: Option<string>,
    addTimestamp: bool,
    useDailyNotes: bool,
    customLocation: Option<string>,
    customBlock: Option<string>)

  /** The editable settings of a stored profile. */
  function StoredOf(profile: UserProfile): StoredSettings
    reads profile
  {
    StoredSettings(profile.appAppearanceRaw, profile.graphName, profile.apiToken, profile.defaultTag,
                   profile.addTimestamp, profile.useDailyNotes, profile.customLocation, profile.customBlock)
  }

  /** What loading shows: each setting read through the profile's getters. */
  function Shown(s: StoredSettings): EditedSettings {
    EditedSettings(AppearanceFromRaw(s.appearanceRaw).GetOr(System), s.graphName, s.apiToken, s.defaultTag,
                   s.addTimestamp, s.useDailyNotes, s.customLocation, s.customBlock)
  }

  /** What saving stores: each setting written through the profile's setters. */
  function Written(e: EditedSettings): StoredSettings {
    StoredSettings(e.appearance.RawValue(), e.graphName, e.apiToken, e.defaultTag,
                   e.addTimestamp, e.useDailyNotes, e.customLocation, e.customBlock)
  }

  /** Loading and saving without edits gives back the stored settings exactly
      when the stored appearance is one the enum carries; an unknown raw value
      is replaced by "system". */
  lemma LoadThenSave(s: StoredSettings)
    ensures Written(Shown(s)) == s <==> AppearanceFromRaw(s.appearanceRaw).Some?
    ensures AppearanceFromRaw(s.appearanceRaw).None? ==>
              Written(Shown(s)) == s.(appearanceRaw := System.RawValue())
  {
    if AppearanceFromRaw(s.appearanceRaw).None? {
      assert Written(Shown(s)).appearanceRaw == "system";
    }
  }

  /** Saving and then loading shows the edited settings unchanged. */
  lemma SaveThenLoad(e: EditedSettings)
    ensures Shown(Written(e)) == e
  {
    assert AppearanceFromRaw(e.appearance.RawValue()) == Some(e.appearance) by {
      assert e.appearance.Id() == e.appearance.RawValue();
    }
  }

  class ProfileViewModel {
    var appAppearance: Appearance
    var isProfileReady: bool
    var graphName: Option<string>
    var apiToken: Option<string>
    var defaultTag: Option<string>
    var addTimestamp: bool
    var useDailyNotes: bool
    var customLocation: Option<string>
    var customBlock: Option<string>
    /** The profile loaded last, written back on save. */
    var profileModel: Option<UserProfile>

    /** The screen's current settings. */
    function Settings(): EditedSettings
      reads this
    {
      EditedSettings(appAppearance, graphName, apiToken, defaultTag, addTimestamp, useDailyNotes, customLocation, customBlock)
    }

    /** A view model before any profile is loaded. */
    constructor ()
      ensures appAppearance == System && !isProfileReady && !addTimestamp && useDailyNotes
      ensures graphName.None? && apiToken.None? && defaultTag.None?
      ensures customLocation.None? && customBlock.None? && profileModel.None?
    {
      appAppearance, isProfileReady := System, false;
      graphName, apiToken, defaultTag := None, None, None;
      addTimestamp, useDailyNotes := false, true;
      customLocation, customBlock := None, None;
      profileModel := None;
    }

    /** `updateViewModel(with:)`: remembers the profile, shows its eight
        settings and marks the profile ready. The profile is not changed. */
    method UpdateViewModel(profile: UserProfile)
      modifies this
      ensures profileModel == Some(profile) && isProfileReady
      ensures Settings() == Shown(StoredOf(profile))
    {
      profileModel := Some(profile);
      appAppearance := profile.AppAppearance();
      graphName := profile.graphName;
      apiToken := profile.apiToken;
      defaultTag := profile.defaultTag;
      addTimestamp := profile.addTimestamp;
      useDailyNotes := profile.useDailyNotes;
      customLocation := profile.customLocation;
      customBlock := profile.customBlock;
      isProfileReady := true;
    }

    /** `saveChanges(context:)`: without a loaded profile nothing changes;
        otherwise the loaded profile's eight settings become the screen's, and
        its identifier and share-format preference are kept. */
    method SaveChanges()
      modifies if profileModel.Some? then {profileModel.value} else {}
      ensures profileModel.Some? ==>
                var p := profileModel.value;
                && StoredOf(p) == Written(Settings())
                && p.id == old(p.id) && p.shareFormatLinks == old(p.shareFormatLinks)
    {
      if profileModel.None? {
        return;
      }
      var profile := profileModel.value;
      profile.SetAppAppearance(appAppearance);
      profile.graphName := graphName;
      profile.apiToken := apiToken;
      profile.defaultTag := defaultTag;
      profile.addTimestamp := addTimestamp;
      profile.useDailyNotes := useDailyNotes;
      profile.customLocation := customLocation;
      profile.customBlock := customBlock;
    }
  }
}
