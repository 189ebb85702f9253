/**
 * The app's persistent store (the SwiftData model context shared by the app and
 * the share extension): outbox records by identifier and the profiles in the
 * order they were inserted. It also holds the set of records whose send is in
 * flight, which the sync worker keeps as a process-wide static, shared by every
 * worker instance.
 *
 * Saving is not modelled: every change is visible at once, and a failed save is
 * swallowed by the app anyway.
 */
module Stores {
  import opened OutboxItems
  import opened UserProfiles

  /** Every record sits under its own identifier and is consistent, and only a
      stored record whose status is in-progress can be in flight. */
  ghost predicate ValidState(items: map<Uuid, OutboxItem>, inFlight: set<Uuid>) {
    && (forall id | id in items :: items[id].id == id && Consistent(items[id]))
    && (forall id | id in inFlight :: id in items && items[id].status == InProgress.RawValue())
  }

  /** Claiming a stored record and marking it in progress keeps the store valid. */
  lemma ClaimKeepsValid(items: map<Uuid, OutboxItem>, inFlight: set<Uuid>, item: OutboxItem)
    requires ValidState(items, inFlight) && item.id in items
    requires Consistent(item) && item.status == InProgress.RawValue()
    ensures ValidState(items[item.id := item], inFlight + {item.id})
  {
  }

  /** Writing a consistent record back under its identifier keeps the store
      valid once its claim is released. */
  lemma ReleaseKeepsValid(items: map<Uuid, OutboxItem>, inFlight: set<Uuid>, item: OutboxItem)
    requires ValidState(items, inFlight) && item.id in items && Consistent(item)
    ensures ValidState(items[item.id := item], inFlight - {item.id})
  {
  }

  class Store {
    var items: map<Uuid, OutboxItem>
    var profiles: seq<UserProfile>
    var inFlight: set<Uuid>

    ghost predicate Valid()
      reads this`items, this`inFlight
    {
      ValidState(items, inFlight)
    }

    constructor ()
      ensures Valid()
      ensures items == map[] && profiles == [] && inFlight == {}
    {
      items, profiles, inFlight := map[], [], {};
    }

    /** `modelContext.insert(item)` for a record with a fresh identifier. */
    method InsertItem(item: OutboxItem)
      requires Valid()
      requires item.id !in items && Consistent(item)
      modifies this`items
      ensures Valid()
      ensures items == old(items)[item.id := item]
    {
      items := items[item.id := item];
    }

    /** `modelContext.insert(profile)` for a profile not yet stored. */
    method InsertProfile(profile: UserProfile)
      requires profile !in profiles
      modifies this`profiles
      ensures profiles == old(profiles) + [profile]
    {
      profiles := profiles + [profile];
    }
  }
}
