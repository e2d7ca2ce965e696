/** The realtime device subscription (src/hooks/useDeviceSync.ts): once the
    signed-in user's row is known, every change event on the `devices`
    table that carries that user's id in its new row is applied to the
    store. The database queries and the channel are inputs: the resolved
    user row id, the listing and the events themselves. */
module DeviceSync {
  import opened Records
  import opened DeviceStore

  datatype EventKind = InsertEvent | UpdateEvent | DeleteEvent

  /** A change payload: `new` (none for an empty object) and the id in `old`. */
  datatype ChangeEvent = ChangeEvent(kind: EventKind, newRow: Option<Device>, oldId: string)

  /** `next?.user_id && next.user_id === userRow.id` */
  predicate Passes(e: ChangeEvent, owner: string) {
    e.newRow.Some? && e.newRow.value.userId != [] && e.newRow.value.userId == owner
  }

  /** `next.is_active ?? false` */
  function ActiveOrFalse(isActive: Option<bool>): (b: bool)
    ensures b <==> isActive == Some(true)
  {
    if isActive.Some? then isActive.value else false
  }

  /** The payload handler's effect on the device list. */
  function SyncEffect(devices: seq<Device>, owner: string, e: ChangeEvent): (r: seq<Device>)
    ensures !Passes(e, owner) ==> r == devices
    ensures Passes(e, owner) && e.kind == DeleteEvent ==>
      && (forall j :: 0 <= j < |r| ==> r[j].id != e.oldId)
      && (forall d :: d in devices && d.id != e.oldId ==> d in r)
      && Subsequence(r, devices)
    ensures Passes(e, owner) && e.kind == UpdateEvent ==>
      && |r| == |devices|
      && forall j :: 0 <= j < |devices| ==>
        r[j] == if devices[j].id == e.newRow.value.id
          then devices[j].(isActive := Some(e.newRow.value.isActive == Some(true)))
          else devices[j]
    ensures Passes(e, owner) && e.kind == InsertEvent ==>
      && e.newRow.value in r && HasId(r, e.newRow.value.id)
      && (!HasId(devices, e.newRow.value.id) ==> r == [e.newRow.value] + devices)
      && (HasId(devices, e.newRow.value.id) ==>
            && |r| == |devices|
            && exists k :: 0 <= k < |r| && devices[k].id == e.newRow.value.id && r[k] == e.newRow.value
                 && forall j :: 0 <= j < |r| && j != k ==> r[j] == devices[j])
  {
    if !Passes(e, owner) then devices
    else match e.kind
      case DeleteEvent =>
        RemovedSpec(devices, e.oldId);
        Removed(devices, e.oldId)
      case UpdateEvent =>
        WithActiveSpec(devices, e.newRow.value.id, ActiveOrFalse(e.newRow.value.isActive));
        WithActive(devices, e.newRow.value.id, ActiveOrFalse(e.newRow.value.isActive))
      case InsertEvent =>
        var row := e.newRow.value;
        UpsertContains(devices, row);
        if HasId(devices, row.id) then
          UpsertExistingReplaces(devices, row);
          var k := FindIndex(devices, row.id);
          assert devices[k].id == row.id && Upserted(devices, row)[k] == row;
          Upserted(devices, row)
        else
          UpsertNewPrepends(devices, row);
          assert Upserted(devices, row) == [row] + Upserted(devices, row)[1..];
          Upserted(devices, row)
  }

  /** The filter runs before the event type is looked at: a delete whose new row is empty
      is dropped, and only one whose new row carries the user's id removes anything. */
  lemma DeleteNeedsOwnerInNewRow(devices: seq<Device>, owner: string, oldId: string)
    ensures SyncEffect(devices, owner, ChangeEvent(DeleteEvent, None, oldId)) == devices
  {
  }

  /** An update applies `is_active` alone: every other field of every device is kept. */
  lemma UpdateKeepsOtherFields(devices: seq<Device>, owner: string, e: ChangeEvent)
    requires Passes(e, owner) && e.kind == UpdateEvent
    ensures var r := SyncEffect(devices, owner, e);
      |r| == |devices| && forall j :: 0 <= j < |devices| ==> r[j].(isActive := devices[j].isActive) == devices[j]
  {
    var r := SyncEffect(devices, owner, e);
    forall j | 0 <= j < |devices|
      ensures r[j].(isActive := devices[j].isActive) == devices[j]
    {
    }
  }

  /** Applying a passing delete twice is applying it once. */
  lemma {:induction false} DeleteIdempotent(devices: seq<Device>, owner: string, e: ChangeEvent)
    requires Passes(e, owner) && e.kind == DeleteEvent
    ensures SyncEffect(SyncEffect(devices, owner, e), owner, e) == SyncEffect(devices, owner, e)
  {
    var r := SyncEffect(devices, owner, e);
    assert !HasId(r, e.oldId);
    RemoveAbsent(r, e.oldId);
  }

  /** The hook: the owner's row id once the bootstrap succeeded, none before or without it. */
  class Subscription {
    const store: Store
    var owner: Option<string>

    constructor (store: Store)
      ensures this.store == store && owner.None?
    {
      this.store := store;
      owner := None;
    }

    /** The effect: nothing unless signed in with a user id; then the user row lookup and the
        listing (none when the query fails) decide whether the list is loaded and the
        channel opened. */
    method Start(isSignedIn: bool, userId: Option<string>, userRowId: Option<string>, listing: Option<seq<Device>>)
      modifies this`owner, store`devices
      ensures var opens := isSignedIn && Truthy(userId) && Truthy(userRowId) && listing.Some?;
        && (opens ==> owner == userRowId && store.devices == listing.value)
        && (!opens ==> owner == old(owner) && store.devices == old(store.devices))
    {
      if !isSignedIn || !(userId.Some? && userId.value != []) {
        return;
      }
      if !(userRowId.Some? && userRowId.value != []) {
        return;
      }
      if listing.None? {
        return;
      }
      store.SetDevices(listing.value);
      owner := userRowId;
    }

    /** The payload handler; without an open channel no event arrives. */
    method OnChange(e: ChangeEvent)
      modifies store`devices
      ensures owner.Some? ==> store.devices == SyncEffect(old(store.devices), owner.value, e)
      ensures owner.None? ==> store.devices == old(store.devices)
    {
      if owner.None? {
        return;
      }
      var next := e.newRow;
      if !(next.Some? && next.value.userId != [] && next.value.userId == owner.value) {
        return;
      }
      match e.kind
      case DeleteEvent =>
        store.RemoveDevice(e.oldId);
      case UpdateEvent =>
        var active := if next.value.isActive.Some? then next.value.isActive.value else false;
        store.UpdateDeviceState(next.value.id, active);
      case InsertEvent =>
        store.UpsertDevice(next.value);
    }
  }
}
