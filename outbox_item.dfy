/**
 * The outbox record: one captured note or to-do waiting to be appended to the
 * user's Roam graph, with the bookkeeping the sync worker keeps on it.
 *
 * Instants are whole seconds (see module Clock). `status` is stored as the raw
 * integer of a `SyncStatus`, as the persistent model stores it.
 */
module OutboxItems {
  import opened Options

  /** The record identifier (`UUID`). */
  type Uuid = nat

  datatype SyncStatus = Pending | Success | Failed | InProgress {

    /** The stored raw value. */
    function RawValue(): int {
      match this
      case Pending => 0
      case Success => 1
      case Failed => 2
      case InProgress => 3
    }

    /** `description`: the label shown to the user. */
    function Description(): string {
      match this
      case Pending => "Pending"
      case Success => "Success"
      case Failed => "Failed"
      case InProgress => "In Progress"
    }
  }

  /** `SyncStatus(rawValue:)`: absent for a raw value no case carries. */
  function StatusFromRaw(raw: int): (r: Option<SyncStatus>)
    ensures r.Some? <==> 0 <= raw <= 3
    ensures r.Some? ==> r.value.RawValue() == raw
  {
    if raw == 0 then Some(Pending)
    else if raw == 1 then Some(Success)
    else if raw == 2 then Some(Failed)
    else if raw == 3 then Some(InProgress)
    else None
  }

  /** Every status survives the trip through its raw value, so the raw values
      are distinct. */
  lemma StatusRawRoundTrip(s: SyncStatus)
    ensures StatusFromRaw(s.RawValue()) == Some(s)
  {
  }

  /** Distinct statuses carry distinct labels. */
  lemma DescriptionsDistinct(s: SyncStatus, t: SyncStatus)
    ensures s.Description() == t.Description() ==> s == t
  {
  }

  datatype ItemType = Note | Todo {
    function RawValue(): int {
      match this
      case Note => 0
      case Todo => 1
    }
  }

  /** `OutboxItemType(rawValue:)` */
  function ItemTypeFromRaw(raw: int): (r: Option<ItemType>)
    ensures r.Some? <==> raw == 0 || raw == 1
    ensures r.Some? ==> r.value.RawValue() == raw
  {
    if raw == 0 then Some(Note) else if raw == 1 then Some(Todo) else None
  }

  datatype OutboxItem = OutboxItem(
    id: Uuid,
    content: string,
    itemType: ItemType,
    createdAt: int,
    sentAt: Option<int>,
    status: int,
    lastError: Option<string>,
    attemptCount: nat,
    stampAt: Option<int>,        // first-attempt instant, reused by every retry's timestamp suffix
    lastAttemptAt: Option<int>,
    nextAttemptAt: Option<int>,  // no automatic retry before this instant
    hardError: Option<bool>)     // latched on 401/403; absent reads as false

  /** `item.hardError ?? false` */
  predicate IsHardError(item: OutboxItem) {
    item.hardError.GetOr(false)
  }

  /** The record invariant every transition keeps: a latched record is never a
      sent one. */
  predicate Consistent(item: OutboxItem) {
    IsHardError(item) ==> item.status != Success.RawValue()
  }

  /** `OutboxItem(content:type:)`, with the identifier and the creation instant
      that `UUID()` and `Date()` supply. */
  function NewItem(id: Uuid, content: string, itemType: ItemType, now: int): (r: OutboxItem)
    ensures r.id == id && r.content == content && r.itemType == itemType && r.createdAt == now
    ensures StatusFromRaw(r.status) == Some(Pending) && r.attemptCount == 0
    ensures r.sentAt.None? && r.lastError.None?
    ensures r.stampAt.None? && r.lastAttemptAt.None? && r.nextAttemptAt.None? && r.hardError.None?
    ensures !IsHardError(r) && Consistent(r)
  {
    OutboxItem(id, content, itemType, now, None, Pending.RawValue(), None, 0, None, None, None, None)
  }

  /** `OutboxItem(content:)`: the type defaults to a note. */
  function NewNote(id: Uuid, content: string, now: int): (r: OutboxItem)
    ensures r.itemType == Note && r == NewItem(id, content, Note, now)
  {
    NewItem(id, content, Note, now)
  }
}
