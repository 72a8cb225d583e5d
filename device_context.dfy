/** The client-side device store: four state cells (`devices`, `summary`,
    `loading`, `error`) and the operations that refresh them from the API
    or mutate one device and then refresh the summary.

    Each network call is a parameter: the caller passes the outcome the API
    would deliver. A ghost log records the calls the store issued, in
    order, so that "the summary is re-fetched once, after the replace" can
    be stated. */
module Store {
  import opened Schemas

  /** A rejected API promise: `message` is `err.message` when the rejection
      is an `Error` object, and absent otherwise. */
  datatype Failure = Failure(message: Option<string>)

  /** The outcome of one API call. */
  datatype ApiResult<T> = Ok(data: T) | Err(failure: Failure)

  /** The API requests the store can issue. */
  datatype ApiCall =
    | ListDevices
    | FetchSummary
    | PatchDevice(id: int, patch: DeviceUpdate)
    | PostAction(id: int, request: DeviceAction)

  /** How a mutation's promise settles for its caller: the store re-throws
      the API's rejection unchanged. */
  datatype Settled = Resolved | Rejected(failure: Failure)

  /** `err instanceof Error ? err.message : fallback`. */
  function MessageOr(f: Failure, fallback: string): string {
    f.message.GetOr(fallback)
  }

  /** `prev.map(device => device.id === id ? updated : device)`. */
  function ReplaceById(ds: seq<Device>, id: int, updated: Device): (r: seq<Device>)
    ensures |r| == |ds|
    ensures forall j :: 0 <= j < |ds| && ds[j].id == id ==> r[j] == updated
    ensures forall j :: 0 <= j < |ds| && ds[j].id != id ==> r[j] == ds[j]
  {
    if ds == [] then []
    else [if ds[0].id == id then updated else ds[0]] + ReplaceById(ds[1..], id, updated)
  }

  /** When no entry has the id, the replace changes nothing. */
  lemma ReplaceMissingIsIdentity(ds: seq<Device>, id: int, updated: Device)
    requires forall j :: 0 <= j < |ds| ==> ds[j].id != id
    ensures ReplaceById(ds, id, updated) == ds
  {
  }

  /** Whether no two entries share an id. */
  predicate UniqueIds(ds: seq<Device>) {
    forall j, k :: 0 <= j < k < |ds| ==> ds[j].id != ds[k].id
  }

  /** When the server returns a device with the requested id, the replace
      keeps the ids (hence their uniqueness) and is idempotent; with
      unique ids it changes at most one entry. */
  lemma ReplaceKeepsIds(ds: seq<Device>, id: int, updated: Device)
    requires updated.id == id
    ensures forall j :: 0 <= j < |ds| ==> ReplaceById(ds, id, updated)[j].id == ds[j].id
    ensures UniqueIds(ds) ==> UniqueIds(ReplaceById(ds, id, updated))
    ensures ReplaceById(ReplaceById(ds, id, updated), id, updated) == ReplaceById(ds, id, updated)
    ensures UniqueIds(ds) ==>
              forall j, k :: 0 <= j < k < |ds| ==>
                ReplaceById(ds, id, updated)[j] == ds[j] || ReplaceById(ds, id, updated)[k] == ds[k]
  {
    var r := ReplaceById(ds, id, updated);
    var rr := ReplaceById(r, id, updated);
    assert forall j :: 0 <= j < |ds| ==> rr[j] == r[j];
  }

  /** The store provided to the component tree. */
  class DeviceProvider {
    var devices: seq<Device>
    var summary: Option<Summary>
    var loading: bool
    var error: Option<string>
    /** The API calls issued so far, oldest first. */
    ghost var calls: seq<ApiCall>

    /** The state before any fetch has settled. */
    constructor ()
      ensures devices == [] && summary == None && loading && error == None
      ensures calls == []
    {
      devices := [];
      summary := None;
      loading := true;
      error := None;
      calls := [];
    }

    /** `refreshDevices`: re-fetch the list; `loading` ends false either way. */
    method RefreshDevices(response: ApiResult<seq<Device>>)
      modifies this
      ensures calls == old(calls) + [ListDevices]
      ensures !loading && summary == old(summary)
      ensures response.Ok? ==> devices == response.data && error == None
      ensures response.Err? ==>
                devices == old(devices) &&
                error == Some(MessageOr(response.failure, "Failed to fetch devices"))
    {
      loading := true;
      error := None;
      calls := calls + [ListDevices];
      match response {
        case Ok(data) =>
          devices := data;
        case Err(f) =>
          error := Some(MessageOr(f, "Failed to fetch devices"));
      }
      loading := false;
    }

    /** `refreshSummary`: clears `error`, re-fetches the summary and never
        re-throws; `devices` and `loading` are left alone. */
    method RefreshSummary(response: ApiResult<Summary>)
      modifies this
      ensures calls == old(calls) + [FetchSummary]
      ensures devices == old(devices) && loading == old(loading)
      ensures response.Ok? ==> summary == Some(response.data) && error == None
      ensures response.Err? ==>
                summary == old(summary) &&
                error == Some(MessageOr(response.failure, "Failed to fetch summary"))
    {
      error := None;
      calls := calls + [FetchSummary];
      match response {
        case Ok(data) =>
          summary := Some(data);
        case Err(f) =>
          error := Some(MessageOr(f, "Failed to fetch summary"));
      }
    }

    /** The shared tail of `updateDevice` and `performAction`, after the
        request has been issued: on success replace the entry by id and
        refresh the summary; on failure record the message and re-throw. */
    method Commit(deviceId: int, response: ApiResult<Device>, summaryResponse: ApiResult<Summary>,
                  fallback: string)
      returns (settled: Settled)
      modifies this
      ensures loading == old(loading)
      ensures response.Ok? ==>
                && settled == Resolved
                && devices == ReplaceById(old(devices), deviceId, response.data)
                && calls == old(calls) + [FetchSummary]
                && (summaryResponse.Ok? ==> summary == Some(summaryResponse.data) && error == None)
                && (summaryResponse.Err? ==>
                      summary == old(summary) &&
                      error == Some(MessageOr(summaryResponse.failure, "Failed to fetch summary")))
      ensures response.Err? ==>
                && settled == Rejected(response.failure)
                && devices == old(devices) && summary == old(summary)
                && calls == old(calls)
                && error == Some(MessageOr(response.failure, fallback))
    {
      match response {
        case Ok(updated) =>
          devices := ReplaceById(devices, deviceId, updated);
          RefreshSummary(summaryResponse);
          settled := Resolved;
        case Err(f) =>
          error := Some(MessageOr(f, fallback));
          settled := Rejected(f);
      }
    }

    /** `updateDevice`: PATCH the device, then as `Commit`. */
    method UpdateDevice(deviceId: int, updateData: DeviceUpdate,
                        response: ApiResult<Device>, summaryResponse: ApiResult<Summary>)
      returns (settled: Settled)
      modifies this
      ensures loading == old(loading)
      ensures response.Ok? ==>
                && settled == Resolved
                && devices == ReplaceById(old(devices), deviceId, response.data)
                && calls == old(calls) + [PatchDevice(deviceId, updateData), FetchSummary]
                && (summaryResponse.Ok? ==> summary == Some(summaryResponse.data) && error == None)
                && (summaryResponse.Err? ==>
                      summary == old(summary) &&
                      error == Some(MessageOr(summaryResponse.failure, "Failed to fetch summary")))
      ensures response.Err? ==>
                && settled == Rejected(response.failure)
                && devices == old(devices) && summary == old(summary)
                && calls == old(calls) + [PatchDevice(deviceId, updateData)]
                && error == Some(MessageOr(response.failure, "Failed to update device"))
    {
      error := None;
      calls := calls + [PatchDevice(deviceId, updateData)];
      settled := Commit(deviceId, response, summaryResponse, "Failed to update device");
    }

    /** `performAction`: POST the action, then as `Commit`. */
    method PerformAction(deviceId: int, actionData: DeviceAction,
                         response: ApiResult<Device>, summaryResponse: ApiResult<Summary>)
      returns (settled: Settled)
      modifies this
      ensures loading == old(loading)
      ensures response.Ok? ==>
                && settled == Resolved
                && devices == ReplaceById(old(devices), deviceId, response.data)
                && calls == old(calls) + [PostAction(deviceId, actionData), FetchSummary]
                && (summaryResponse.Ok? ==> summary == Some(summaryResponse.data) && error == None)
                && (summaryResponse.Err? ==>
                      summary == old(summary) &&
                      error == Some(MessageOr(summaryResponse.failure, "Failed to fetch summary")))
      ensures response.Err? ==>
                && settled == Rejected(response.failure)
                && devices == old(devices) && summary == old(summary)
                && calls == old(calls) + [PostAction(deviceId, actionData)]
                && error == Some(MessageOr(response.failure, "Failed to perform action"))
    {
      error := None;
      calls := calls + [PostAction(deviceId, actionData)];
      settled := Commit(deviceId, response, summaryResponse, "Failed to perform action");
    }
  }

  /** A client of the store: two refreshes with the same response leave
      the same devices; a successful update with a fresh summary replaces
      the entry and issues exactly one summary fetch after the patch; a
      rejected action leaves the devices alone and is seen by the caller. */
  method StoreScenario(d: Device, s: Summary, renamed: Device, f: Failure)
    requires renamed.id == d.id
  {
    var store := new DeviceProvider();
    store.RefreshDevices(Ok([d]));
    store.RefreshSummary(Ok(s));
    assert !store.loading && store.error == None && |store.devices| == 1;
    store.RefreshDevices(Ok([d]));
    assert store.devices == [d];
    var patch := EmptyUpdate.(given_name := Some(renamed.given_name));
    var settled := store.UpdateDevice(d.id, patch, Ok(renamed), Ok(s));
    assert settled == Resolved && store.devices == [renamed];
    assert store.calls[|store.calls| - 2..] == [PatchDevice(d.id, patch), FetchSummary];
    settled := store.PerformAction(d.id, DeviceAction("isolate", None), Err(f), Ok(s));
    assert settled.Rejected? && store.devices == [renamed];
    assert store.error == Some(MessageOr(f, "Failed to perform action"));
  }
}
