/**
 * The vendor store: an in-memory cache of vendors plus the `loading` and
 * `error` slots. Every action first sets `loading` and clears `error`, awaits
 * the service, updates the cache from the reply, and clears `loading` in its
 * `finally` block.
 */
module VendorCache {
  import opened Common
  import opened Service
  import Lists

  datatype Vendor = Vendor(
    id: string,
    name: string,
    payment_schedule: string,
    is_active: bool,
    created_at: string,
    updated_at: string)

  function VendorId(v: Vendor): string {
    v.id
  }

  /** `Partial<Vendor>`: the fields an update sends. */
  datatype VendorPatch = VendorPatch(
    id: Option<string>,
    name: Option<string>,
    payment_schedule: Option<string>,
    is_active: Option<bool>,
    created_at: Option<string>,
    updated_at: Option<string>)

  const NoChange := VendorPatch(None, None, None, None, None, None)

  function Pick<T>(o: Option<T>, current: T): T {
    match o
    case Some(v) => v
    case None => current
  }

  /** `{ ...vendor, ...patch }`: each field the patch carries overrides the vendor's. */
  function Patched(v: Vendor, patch: VendorPatch): (r: Vendor)
    ensures patch.id.Some? ==> r.id == patch.id.value
    ensures patch.id.None? ==> r.id == v.id
    ensures patch.name.Some? ==> r.name == patch.name.value
    ensures patch.name.None? ==> r.name == v.name
    ensures patch.payment_schedule.Some? ==> r.payment_schedule == patch.payment_schedule.value
    ensures patch.payment_schedule.None? ==> r.payment_schedule == v.payment_schedule
    ensures patch.is_active.Some? ==> r.is_active == patch.is_active.value
    ensures patch.is_active.None? ==> r.is_active == v.is_active
    ensures patch.created_at.Some? ==> r.created_at == patch.created_at.value
    ensures patch.created_at.None? ==> r.created_at == v.created_at
    ensures patch.updated_at.Some? ==> r.updated_at == patch.updated_at.value
    ensures patch.updated_at.None? ==> r.updated_at == v.updated_at
  {
    Vendor(
      Pick(patch.id, v.id),
      Pick(patch.name, v.name),
      Pick(patch.payment_schedule, v.payment_schedule),
      Pick(patch.is_active, v.is_active),
      Pick(patch.created_at, v.created_at),
      Pick(patch.updated_at, v.updated_at))
  }

  /** An empty patch changes nothing, and a patch applied twice is the patch applied once. */
  lemma PatchedLaws(v: Vendor, patch: VendorPatch)
    ensures Patched(v, NoChange) == v
    ensures Patched(Patched(v, patch), patch) == Patched(v, patch)
  {
  }

  /** The body of the list endpoint and of the create endpoint. */
  datatype VendorsData = VendorsData(vendors: seq<Vendor>)
  datatype CreatedVendor = CreatedVendor(vendor: Vendor)

  const FetchFailed := "Failed to fetch vendors"
  const CreateFailed := "Failed to create vendor"
  const UpdateFailed := "Failed to update vendor"
  const DeleteFailed := "Failed to delete vendor"

  datatype VendorState = VendorState(vendors: seq<Vendor>, loading: bool, error: Option<string>)

  /** The outcome of an action that returns a boolean. */
  datatype Transition = Transition(state: VendorState, ok: bool)

  /** `set({ loading: true, error: null })`, the synchronous part of every action. */
  function Started(s: VendorState): (r: VendorState)
    ensures r.loading && r.error.None? && r.vendors == s.vendors
  {
    s.(loading := true, error := None)
  }

  /** What `fetchVendors` does once its reply arrives. */
  function VendorsFetched(s: VendorState, reply: Reply<VendorsData>): (r: VendorState)
    ensures !r.loading
    ensures Delivered(reply) ==> r.vendors == reply.body.data.value.vendors && r.error == s.error
    ensures !Delivered(reply) ==> r.vendors == s.vendors
    ensures Succeeded(reply) && !Delivered(reply) ==> r.error == Some(FetchFailed)
    ensures reply.Received? && !reply.body.success ==> r.error == Some(reply.body.message)
    ensures reply.Threw? ==> r.error == Some(FetchFailed)
  {
    match reply
    case Threw => s.(loading := false, error := Some(FetchFailed))
    case Received(body) =>
      if !body.success then s.(loading := false, error := Some(body.message))
      else match body.data
        case Some(d) => s.(loading := false, vendors := d.vendors)
        // `data.data.vendors` throws a TypeError, caught by the catch block
        case None => s.(loading := false, error := Some(FetchFailed))
  }

  /** What `createVendor` does once its reply arrives. */
  function VendorCreated(s: VendorState, reply: Reply<CreatedVendor>): (t: Transition)
    ensures !t.state.loading
    ensures t.ok <==> Delivered(reply)
    ensures t.ok ==> |t.state.vendors| == |s.vendors| + 1
    ensures t.ok ==> t.state.vendors[..|s.vendors|] == s.vendors
    ensures t.ok ==> t.state.vendors[|s.vendors|] == reply.body.data.value.vendor
    ensures t.ok ==> t.state.error == s.error
    ensures !t.ok ==> t.state.vendors == s.vendors
    ensures !t.ok ==> t.state.error == Some(if Succeeded(reply) || reply.Threw? then CreateFailed else reply.body.message)
  {
    match reply
    case Threw => Transition(s.(loading := false, error := Some(CreateFailed)), false)
    case Received(body) =>
      if !body.success then Transition(s.(loading := false, error := Some(body.message)), false)
      else match body.data
        case Some(d) => Transition(s.(loading := false, vendors := s.vendors + [d.vendor]), true)
        case None => Transition(s.(loading := false, error := Some(CreateFailed)), false)
  }

  /** What `updateVendor` does once its reply arrives. */
  function VendorUpdated(s: VendorState, id: string, patch: VendorPatch, reply: Reply<()>): (t: Transition)
    ensures !t.state.loading
    ensures t.ok <==> Succeeded(reply)
    ensures |t.state.vendors| == |s.vendors|
    ensures t.ok ==> forall i :: 0 <= i < |s.vendors| && s.vendors[i].id == id ==>
      t.state.vendors[i] == Patched(s.vendors[i], patch)
    ensures t.ok ==> forall i :: 0 <= i < |s.vendors| && s.vendors[i].id != id ==>
      t.state.vendors[i] == s.vendors[i]
    ensures t.ok ==> t.state.error == s.error
    ensures !t.ok ==> t.state.vendors == s.vendors
    ensures !t.ok ==> t.state.error == Some(if reply.Threw? then UpdateFailed else reply.body.message)
  {
    match reply
    case Threw => Transition(s.(loading := false, error := Some(UpdateFailed)), false)
    case Received(body) =>
      if !body.success then Transition(s.(loading := false, error := Some(body.message)), false)
      else Transition(s.(loading := false, vendors := Lists.UpdateKey(s.vendors, VendorId, id, v => Patched(v, patch))), true)
  }

  /** What `deleteVendor` does once its reply arrives. */
  function VendorDeleted(s: VendorState, id: string, reply: Reply<()>): (t: Transition)
    ensures !t.state.loading
    ensures t.ok <==> Succeeded(reply)
    ensures t.ok ==> t.state.vendors == Lists.RemoveKey(s.vendors, VendorId, id)
    ensures t.ok ==> t.state.error == s.error
    ensures !t.ok ==> t.state.vendors == s.vendors
    ensures !t.ok ==> t.state.error == Some(if reply.Threw? then DeleteFailed else reply.body.message)
  {
    match reply
    case Threw => Transition(s.(loading := false, error := Some(DeleteFailed)), false)
    case Received(body) =>
      if !body.success then Transition(s.(loading := false, error := Some(body.message)), false)
      else Transition(s.(loading := false, vendors := Lists.RemoveKey(s.vendors, VendorId, id)), true)
  }

  /** A successful delete leaves no vendor with that id and keeps every other vendor. */
  lemma DeleteRemovesAll(s: VendorState, id: string, reply: Reply<()>)
    requires Succeeded(reply)
    ensures var r := VendorDeleted(s, id, reply).state.vendors;
      (forall i :: 0 <= i < |r| ==> r[i].id != id) &&
      (forall i :: 0 <= i < |s.vendors| && s.vendors[i].id != id ==> s.vendors[i] in r)
  {
  }

  /** Deleting the vendor a create just appended restores the list, when its id was new. */
  lemma DeleteUndoesCreate(s: VendorState, created: Reply<CreatedVendor>, deleted: Reply<()>)
    requires Delivered(created) && Succeeded(deleted)
    requires forall i :: 0 <= i < |s.vendors| ==> s.vendors[i].id != created.body.data.value.vendor.id
    ensures var c := VendorCreated(Started(s), created).state;
      VendorDeleted(Started(c), created.body.data.value.vendor.id, deleted).state.vendors == s.vendors
  {
    var v := created.body.data.value.vendor;
    var c := VendorCreated(Started(s), created).state;
    assert c.vendors == s.vendors + [v];
    Lists.RemoveKeyUndoesAppend(s.vendors, v, VendorId);
  }

  /** Sending the same successful update twice leaves the list as one update left it. */
  lemma UpdateTwiceIsOnce(s: VendorState, id: string, patch: VendorPatch, reply: Reply<()>)
    requires Succeeded(reply)
    ensures var once := VendorUpdated(Started(s), id, patch, reply).state;
      VendorUpdated(Started(once), id, patch, reply).state.vendors == once.vendors
  {
    var once := VendorUpdated(Started(s), id, patch, reply).state;
    var twice := VendorUpdated(Started(once), id, patch, reply).state;
    forall i | 0 <= i < |s.vendors| ensures twice.vendors[i] == once.vendors[i] {
      if s.vendors[i].id == id {
        PatchedLaws(s.vendors[i], patch);
      }
    }
  }

  /** A success reply for an id that is not cached reports success and leaves the list as it was. */
  lemma UpdateUnknownId(s: VendorState, id: string, patch: VendorPatch, reply: Reply<()>)
    requires Succeeded(reply)
    requires forall i :: 0 <= i < |s.vendors| ==> s.vendors[i].id != id
    ensures var t := VendorUpdated(s, id, patch, reply);
      t.ok && t.state.vendors == s.vendors
  {
    Lists.UpdateKeyAbsent(s.vendors, VendorId, id, v => Patched(v, patch));
  }

  /** The vendor store: the fields `set` updates. */
  class VendorStore {
    var vendors: seq<Vendor>
    var loading: bool
    var error: Option<string>

    function State(): VendorState
      reads this
    {
      VendorState(vendors, loading, error)
    }

    constructor ()
      ensures State() == VendorState([], false, None)
    {
      vendors, loading, error := [], false, None;
    }

    /** The synchronous start of an action. */
    method Begin()
      modifies this
      ensures State() == Started(old(State()))
    {
      loading, error := true, None;
    }

    /** The rest of `fetchVendors`, run when its reply arrives. */
    method SettleFetch(reply: Reply<VendorsData>)
      modifies this
      ensures State() == VendorsFetched(old(State()), reply)
    {
      match reply {
        case Threw =>
          error := Some(FetchFailed);
        case Received(body) =>
          if body.success {
            match body.data {
              case Some(d) => vendors := d.vendors;
              case None => error := Some(FetchFailed);
            }
          } else {
            error := Some(body.message);
          }
      }
      loading := false;
    }

    method FetchVendors(reply: Reply<VendorsData>)
      modifies this
      ensures State() == VendorsFetched(Started(old(State())), reply)
    {
      Begin();
      SettleFetch(reply);
    }

    /**
     * The name and schedule go to the service only; the cache appends
     * whatever vendor the service returns.
     */
    method CreateVendor(name: string, payment_schedule: string, reply: Reply<CreatedVendor>) returns (ok: bool)
      modifies this
      ensures Transition(State(), ok) == VendorCreated(Started(old(State())), reply)
    {
      loading, error := true, None;
      ok := false;
      match reply {
        case Threw =>
          error := Some(CreateFailed);
        case Received(body) =>
          if body.success {
            match body.data {
              case Some(d) =>
                vendors := vendors + [d.vendor];
                ok := true;
              case None =>
                error := Some(CreateFailed);
            }
          } else {
            error := Some(body.message);
          }
      }
      loading := false;
    }

    method UpdateVendor(id: string, patch: VendorPatch, reply: Reply<()>) returns (ok: bool)
      modifies this
      ensures Transition(State(), ok) == VendorUpdated(Started(old(State())), id, patch, reply)
    {
      loading, error := true, None;
      ok := false;
      match reply {
        case Threw =>
          error := Some(UpdateFailed);
        case Received(body) =>
          if body.success {
            vendors := Lists.UpdateKey(vendors, VendorId, id, v => Patched(v, patch));
            ok := true;
          } else {
            error := Some(body.message);
          }
      }
      loading := false;
    }

    method DeleteVendor(id: string, reply: Reply<()>) returns (ok: bool)
      modifies this
      ensures Transition(State(), ok) == VendorDeleted(Started(old(State())), id, reply)
    {
      loading, error := true, None;
      ok := false;
      match reply {
        case Threw =>
          error := Some(DeleteFailed);
        case Received(body) =>
          if body.success {
            vendors := Lists.RemoveKey(vendors, VendorId, id);
            ok := true;
          } else {
            error := Some(body.message);
          }
      }
      loading := false;
    }
  }
}
