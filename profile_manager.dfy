/**
 * The device's profile: a device identifier kept in the user defaults, and the
 * one profile stored under it, created on first use.
 */
module ProfileManagers {
  import opened Options
  import opened UserProfiles
  import opened Stores

  /** The user-defaults key of the device identifier. */
  const DeviceUuidKey: string := "capture.deviceUUID"

  /** The string values of `UserDefaults.standard`. */
  class UserDefaults {
    var strings: map<string, string>

    constructor (strings: map<string, string>)
      ensures this.strings == strings
    {
      this.strings := strings;
    }
  }

  /** The position of the first profile with identifier `id`, if any. */
  function FirstWithId(profiles: seq<UserProfile>, id: string): (r: Option<nat>)
    reads profiles
    ensures r.Some? ==> r.value < |profiles| && profiles[r.value].id == id
  {
    if profiles == [] then None
    else if profiles[0].id == id then Some(0)
    else
      var rest := FirstWithId(profiles[1..], id);
      if rest.Some? then Some(rest.value + 1) else None
  }

  /** The fetch finds the earliest profile stored under `id`, and finds nothing
      exactly when no profile is stored under it. */
  lemma {:induction false} FirstWithIdIsFirst(profiles: seq<UserProfile>, id: string)
    ensures var r := FirstWithId(profiles, id);
            && (r.Some? ==> forall j | 0 <= j < r.value :: profiles[j].id != id)
            && (r.None? <==> forall j | 0 <= j < |profiles| :: profiles[j].id != id)
  {
    if profiles != [] && profiles[0].id != id {
      FirstWithIdIsFirst(profiles[1..], id);
      var r := FirstWithId(profiles, id);
      if r.Some? {
        forall j | 0 <= j < r.value ensures profiles[j].id != id {
          if j > 0 { assert profiles[j] == profiles[1..][j - 1]; }
        }
      } else {
        forall j | 0 <= j < |profiles| ensures profiles[j].id != id {
          if j > 0 { assert profiles[j] == profiles[1..][j - 1]; }
        }
      }
    }
  }

  /** Appending a profile does not move the first one with a given identifier,
      and when none had it, the appended one is the first. */
  lemma {:induction false} FirstWithIdAfterAppend(profiles: seq<UserProfile>, p: UserProfile, id: string)
    ensures FirstWithId(profiles, id).Some? ==> FirstWithId(profiles + [p], id) == FirstWithId(profiles, id)
    ensures FirstWithId(profiles, id).None? && p.id == id ==> FirstWithId(profiles + [p], id) == Some(|profiles|)
  {
    if profiles != [] {
      assert (profiles + [p])[1..] == profiles[1..] + [p];
      FirstWithIdAfterAppend(profiles[1..], p, id);
    }
  }

  class ProfileManager {
    const store: Store
    const defaults: UserDefaults

    /** `ProfileManager(modelContext:)` */
    constructor (store: Store, defaults: UserDefaults)
      ensures this.store == store && this.defaults == defaults
    {
      this.store := store;
      this.defaults := defaults;
    }

    /** `deviceUUID`: the stored identifier; on first read, `freshUuid` (what
        `UUID().uuidString` supplies) is stored and returned. Either way the
        stored identifier is the one returned afterwards. */
    method DeviceUuid(freshUuid: string) returns (uuid: string)
      modifies defaults
      ensures DeviceUuidKey in old(defaults.strings) ==>
                uuid == old(defaults.strings)[DeviceUuidKey] && defaults.strings == old(defaults.strings)
      ensures DeviceUuidKey !in old(defaults.strings) ==>
                uuid == freshUuid && defaults.strings == old(defaults.strings)[DeviceUuidKey := freshUuid]
      ensures DeviceUuidKey in defaults.strings && defaults.strings[DeviceUuidKey] == uuid
    {
      if DeviceUuidKey in defaults.strings {
        return defaults.strings[DeviceUuidKey];
      }
      uuid := freshUuid;
      defaults.strings := defaults.strings[DeviceUuidKey := uuid];
    }

    /** `getCurrentProfile()`: the first stored profile under the device
        identifier, or else a new dark-appearance profile under it, inserted.
        Afterwards the returned profile is the first one stored under the stored
        device identifier, so a second call returns it again and inserts
        nothing. */
    method GetCurrentProfile(freshUuid: string) returns (profile: UserProfile)
      requires store.Valid()
      modifies defaults, store`profiles
      ensures store.Valid()
      ensures var deviceId := old(if DeviceUuidKey in defaults.strings then defaults.strings[DeviceUuidKey] else freshUuid);
              var found := old(FirstWithId(store.profiles, deviceId));
              && defaults.strings == old(defaults.strings)[DeviceUuidKey := deviceId]
              && profile.id == deviceId
              && (found.Some? ==> store.profiles == old(store.profiles) && profile == old(store.profiles)[found.value])
              && (found.None? ==> fresh(profile) && store.profiles == old(store.profiles) + [profile]
                                  && profile.AppAppearance() == Dark)
      ensures var first := FirstWithId(store.profiles, defaults.strings[DeviceUuidKey]);
              DeviceUuidKey in defaults.strings && first.Some? && store.profiles[first.value] == profile
    {
      var deviceId := DeviceUuid(freshUuid);
      profile := FetchOrCreate(deviceId, freshUuid);
    }

    /** The fetch of `getCurrentProfile()` and, when it finds nothing, the
        creation, once the device identifier is stored. */
    method FetchOrCreate(deviceId: string, freshUuid: string) returns (profile: UserProfile)
      requires DeviceUuidKey in defaults.strings && defaults.strings[DeviceUuidKey] == deviceId
      modifies defaults, store`profiles
      ensures defaults.strings == old(defaults.strings)
      ensures profile.id == deviceId
      ensures var found := old(FirstWithId(store.profiles, deviceId));
              && (found.Some? ==> store.profiles == old(store.profiles) && profile == old(store.profiles)[found.value])
              && (found.None? ==> fresh(profile) && store.profiles == old(store.profiles) + [profile]
                                  && profile.AppAppearance() == Dark)
      ensures var first := FirstWithId(store.profiles, deviceId);
              first.Some? && store.profiles[first.value] == profile
    {
      var existing := FirstWithId(store.profiles, deviceId);
      if existing.Some? {
        return store.profiles[existing.value];
      }
      var id := DeviceUuid(freshUuid);
      profile := new UserProfile(id);
      FirstWithIdAfterAppend(store.profiles, profile, deviceId);
      store.InsertProfile(profile);
    }
  }
}
