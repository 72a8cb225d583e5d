/** The HTTP handlers for the device table: each is a chain of guards that
    either raises an HTTP error or delegates to the controller. They are
    stated on the table value, through the controller's definitions that
    the `DeviceController` methods are proved to follow. */
module Routes {
  import opened Schemas
  import opened Controller

  /** An `HTTPException(status_code, detail)`. */
  datatype HttpError = HttpError(status: int, detail: string)

  /** What a handler sends back. */
  datatype Response<T> = Ok(body: T) | Raised(error: HttpError)

  /** A handler's response together with the device table afterwards. */
  datatype Handled = Handled(response: Response<Device>, devices: seq<Device>)

  const InvalidAction := HttpError(400, "Invalid action")
  const CategoryRequired := HttpError(400, "Category is required for toggle_block action")
  const NotFound := HttpError(404, "Device not found")

  /** The action names the route accepts. */
  const KnownActions: seq<string> := ["isolate", "release", "toggle_block"]

  /** The two 400 guards of `perform_device_action`, in their order. */
  function ValidateAction(a: DeviceAction): Option<HttpError> {
    if a.action !in KnownActions then Some(InvalidAction)
    else if a.action == "toggle_block" && !HasCategory(a.category) then Some(CategoryRequired)
    else None
  }

  /** `PATCH /api/devices/{device_id}`. */
  function UpdateDeviceRoute(ds: seq<Device>, id: int, u: DeviceUpdate): Handled {
    var t := UpdateTable(ds, id, u);
    if t.device.None? then Handled(Raised(NotFound), t.devices)
    else Handled(Ok(t.device.value), t.devices)
  }

  /** `POST /api/devices/{device_id}/actions`. */
  function PerformDeviceActionRoute(ds: seq<Device>, id: int, a: DeviceAction): Handled {
    match ValidateAction(a)
    case Some(e) => Handled(Raised(e), ds)
    case None =>
      var t := ActionTable(ds, id, a.action, a.category);
      if t.device.None? then Handled(Raised(NotFound), t.devices)
      else Handled(Ok(t.device.value), t.devices)
  }

  /** A request passes validation exactly when its action is one of the
      three known names and, for `toggle_block`, a non-empty category is
      given. */
  lemma ValidateActionExactly(a: DeviceAction)
    ensures ValidateAction(a).None? <==>
              (a.action == "isolate" || a.action == "release" ||
               (a.action == "toggle_block" && HasCategory(a.category)))
    ensures a.action !in KnownActions ==> ValidateAction(a) == Some(InvalidAction)
    ensures a.action == "toggle_block" && !HasCategory(a.category) ==>
              ValidateAction(a) == Some(CategoryRequired)
  {
  }

  /** Validation precedes lookup: a rejected request gets its 400 whether
      or not the id exists, and the table is left as it was. */
  lemma RejectedBeforeLookup(ds: seq<Device>, id: int, a: DeviceAction)
    requires ValidateAction(a).Some?
    ensures PerformDeviceActionRoute(ds, id, a) == Handled(Raised(ValidateAction(a).value), ds)
    ensures PerformDeviceActionRoute(ds, id, a).response.error.status == 400
  {
  }

  /** A valid request answers 404 and changes nothing exactly when no
      device has the id; otherwise it answers 200 with the acted-on device,
      which is also what the table now holds at that device's position. */
  lemma ActionRouteOutcome(ds: seq<Device>, id: int, a: DeviceAction)
    requires ValidateAction(a).None?
    ensures PerformDeviceActionRoute(ds, id, a).response == Raised(NotFound) <==>
              forall j :: 0 <= j < |ds| ==> ds[j].id != id
    ensures PerformDeviceActionRoute(ds, id, a).response == Raised(NotFound) ==>
              PerformDeviceActionRoute(ds, id, a).devices == ds
    ensures (exists j :: 0 <= j < |ds| && ds[j].id == id) ==>
              var i := FindIndex(ds, id).value;
              && PerformDeviceActionRoute(ds, id, a).response.Ok?
              && PerformDeviceActionRoute(ds, id, a).response.body == ApplyAction(ds[i], a.action, a.category)
              && PerformDeviceActionRoute(ds, id, a).devices == ds[i := ApplyAction(ds[i], a.action, a.category)]
  {
    ActionTableEffect(ds, id, a.action, a.category);
  }

  /** The PATCH route answers 404 and changes nothing exactly when the
      controller returns `None` (no device has the id); otherwise it answers
      200 with the patched device, which the table now holds at that
      device's position. */
  lemma UpdateRouteOutcome(ds: seq<Device>, id: int, u: DeviceUpdate)
    ensures UpdateDeviceRoute(ds, id, u).response == Raised(NotFound) <==>
              forall j :: 0 <= j < |ds| ==> ds[j].id != id
    ensures UpdateDeviceRoute(ds, id, u).response == Raised(NotFound) ==>
              UpdateDeviceRoute(ds, id, u).devices == ds
    ensures (exists j :: 0 <= j < |ds| && ds[j].id == id) ==>
              var i := FindIndex(ds, id).value;
              && UpdateDeviceRoute(ds, id, u).response.Ok?
              && UpdateDeviceRoute(ds, id, u).response.body == ApplyUpdate(ds[i], u)
              && UpdateDeviceRoute(ds, id, u).devices == ds[i := ApplyUpdate(ds[i], u)]
  {
    UpdateTableEffect(ds, id, u);
  }

  /** `toggle_block` naming no blocklist field is accepted by the route
      and, for a known id, answers 200 with the device unchanged. */
  lemma UnknownCategoryAnswersUnchanged(ds: seq<Device>, id: int, category: string)
    requires category != "" && ParseFlag(category).None?
    requires exists j :: 0 <= j < |ds| && ds[j].id == id
    ensures PerformDeviceActionRoute(ds, id, DeviceAction("toggle_block", Some(category))) ==
              Handled(Ok(ds[FindIndex(ds, id).value]), ds)
  {
    var i := FindIndex(ds, id).value;
    assert ds[i := ds[i]] == ds;
  }
}
