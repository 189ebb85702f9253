/**
 * The capture entry points of the app: a captured text becomes a new outbox
 * record, which is inserted and at once handed to the sync worker's
 * single-record entry point.
 */
module SyncManagers {
  import opened Options
  import opened OutboxItems
  import opened UserProfiles
  import opened Roam
  import opened Stores
  import opened SyncWorkers

  class SyncManager {
    const store: Store
    const worker: SyncWorker

    /** `SyncManager(modelContext:)`: a worker over the same store. */
    constructor (store: Store, utcOffset: int)
      ensures this.store == store && worker.store == store && worker.utcOffset == utcOffset
    {
      this.store := store;
      this.worker := new SyncWorker(store, utcOffset);
    }

    /** `capture(_:type:)`: exactly one record is added, under the fresh
        identifier `id`, with the given content and type; no other record
        changes. With a configured profile the new record is started at once
        (it is pending and not in flight, so the worker always takes it); without
        one it stays a new pending record. */
    method Capture(id: Uuid, content: string, itemType: ItemType, now: int) returns (sent: Option<SendCall>)
      requires store.Valid() && worker.store == store && id !in store.items
      modifies store
      ensures store.Valid() && store.profiles == old(store.profiles)
      ensures store.items.Keys == old(store.items).Keys + {id}
      ensures forall other | other in old(store.items) :: store.items[other] == old(store.items)[other]
      ensures var created := NewItem(id, content, itemType, now);
              var ctx := old(ConfiguredContext(store.profiles));
              if ctx.None? then
                sent.None? && store.items[id] == created && store.inFlight == old(store.inFlight)
              else
                var (api, profile) := ctx.value;
                var started := StartAttempt(created, profile.addTimestamp, now);
                && store.items[id] == started
                && store.inFlight == old(store.inFlight) + {id}
                && sent == Some(CallFor(api, started, profile.addTimestamp, profile.defaultTag,
                                        old(ResolveLocation(profile)), now, worker.utcOffset))
    {
      var item := NewItem(id, content, itemType, now);
      store.InsertItem(item);
      sent := worker.Sync(id, now);
    }

    /** `captureNote(_:)`: a capture of type note. */
    method CaptureNote(id: Uuid, content: string, now: int) returns (sent: Option<SendCall>)
      requires store.Valid() && worker.store == store && id !in store.items
      modifies store
      ensures store.Valid() && store.profiles == old(store.profiles)
      ensures store.items.Keys == old(store.items).Keys + {id}
      ensures forall other | other in old(store.items) :: store.items[other] == old(store.items)[other]
      ensures store.items[id].itemType == Note && store.items[id].content == content
      ensures sent.Some? <==> old(ConfiguredContext(store.profiles)).Some?
    {
      sent := Capture(id, content, Note, now);
    }

    /** `captureTodo(_:)`: a capture of type to-do. */
    method CaptureTodo(id: Uuid, content: string, now: int) returns (sent: Option<SendCall>)
      requires store.Valid() && worker.store == store && id !in store.items
      modifies store
      ensures store.Valid() && store.profiles == old(store.profiles)
      ensures store.items.Keys == old(store.items).Keys + {id}
      ensures forall other | other in old(store.items) :: store.items[other] == old(store.items)[other]
      ensures store.items[id].itemType == Todo && store.items[id].content == content
      ensures sent.Some? <==> old(ConfiguredContext(store.profiles)).Some?
    {
      sent := Capture(id, content, Todo, now);
    }
  }
}
