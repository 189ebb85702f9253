/**
 * The per-device settings record: which Roam graph to write to, the API token,
 * and the formatting and destination preferences the sync worker and the share
 * extension read. Settings screens change it in place, so it is a class.
 */
module UserProfiles {
  import opened Options

  datatype Appearance = Light | Dark | System {

    /** The raw string the enum stores. */
    function RawValue(): string {
      match this
      case Light => "light"
      case Dark => "dark"
      case System => "system"
    }

    /** `Identifiable.id` */
    function Id(): (r: string)
      ensures AppearanceFromRaw(r) == Some(this)
    {
      RawValue()
    }
  }

  /** `Appearance(rawValue:)` */
  function AppearanceFromRaw(raw: string): (r: Option<Appearance>)
    ensures r.Some? <==> raw in {"light", "dark", "system"}
    ensures r.Some? ==> r.value.RawValue() == raw
  {
    if raw == "light" then Some(Light)
    else if raw == "dark" then Some(Dark)
    else if raw == "system" then Some(System)
    else None
  }

  class UserProfile {
    var id: string
    var appAppearanceRaw: string
    var graphName: Option<string>
    var apiToken: Option<string>
    var defaultTag: Option<string>
    var addTimestamp: bool
    var useDailyNotes: bool
    var customLocation: Option<string>
    var customBlock: Option<string>
    var shareFormatLinks: bool

    /** `UserProfile(id:appAppearance:)`: the appearance defaults to dark, and
        every other field takes its declared default. */
    constructor (id: string, appearance: Appearance := Dark)
      ensures this.id == id && AppAppearance() == appearance
      ensures appAppearanceRaw == appearance.RawValue()
      ensures graphName.None? && apiToken.None? && defaultTag.None?
      ensures !addTimestamp && useDailyNotes && !shareFormatLinks
      ensures customLocation.None? && customBlock.None?
    {
      this.id := id;
      this.appAppearanceRaw := appearance.RawValue();
      graphName, apiToken, defaultTag := None, None, None;
      addTimestamp, useDailyNotes := false, true;
      customLocation, customBlock := None, None;
      shareFormatLinks := false;
    }

    /** The `appAppearance` getter: a stored raw string no case carries reads as
        `system`. */
    function AppAppearance(): (a: Appearance)
      reads this
      ensures a.RawValue() == appAppearanceRaw || (a == System && appAppearanceRaw !in {"light", "dark", "system"})
    {
      AppearanceFromRaw(appAppearanceRaw).GetOr(System)
    }

    /** The `appAppearance` setter: stores the raw value and nothing else. */
    method SetAppAppearance(a: Appearance)
      modifies this`appAppearanceRaw
      ensures appAppearanceRaw == a.RawValue()
      ensures AppAppearance() == a
    {
      appAppearanceRaw := a.RawValue();
    }
  }
}
