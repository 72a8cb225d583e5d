/** The device action dialog: three state cells chosen by the user
    (`action`, `category`) or set while a request runs (`loading`, `error`),
    a submit handler that guards, builds the request and hands it to the
    store, and a close handler that resets the form. The parent's `onClose`
    callback is modelled as a counter of how often it was invoked. */
module ActionDialog {
  import opened Schemas
  import opened Store
  import Routes
  import Controller

  /** The three actions the dialog's select offers. */
  datatype ActionKind = Isolate | Release | ToggleBlock

  /** The wire name of an action. */
  function KindName(k: ActionKind): (s: string)
    ensures s in Routes.KnownActions
  {
    match k
    case Isolate => "isolate"
    case Release => "release"
    case ToggleBlock => "toggle_block"
  }

  /** The categories offered for `toggle_block`: every blocklist field except
      `safesearch`, in declaration order. */
  const BlocklistCategories: seq<string> :=
    ["ads_trackers", "gambling", "social_media", "porn", "gaming", "streaming",
     "facebook", "instagram", "tiktok", "netflix", "youtube", "ai"]

  /** The offered categories are exactly the names of the 12 flags other than
      `safesearch`, each listed once at its flag's position. */
  lemma BlocklistCategoriesExactly()
    ensures |BlocklistCategories| == |AllFlags| - 1
    ensures forall i :: 0 <= i < |BlocklistCategories| ==>
              BlocklistCategories[i] == FlagName(AllFlags[i])
    ensures forall f :: f != Safesearch ==> FlagName(f) in BlocklistCategories
    ensures FlagName(Safesearch) !in BlocklistCategories
  {
    forall f | f != Safesearch ensures FlagName(f) in BlocklistCategories {
      assert BlocklistCategories[FlagIndex(f)] == FlagName(f);
    }
  }

  /** An offered category names a blocklist field other than `safesearch`. */
  lemma OfferedCategoryParses(c: string)
    requires c in BlocklistCategories
    ensures ParseFlag(c).Some? && ParseFlag(c).value != Safesearch
  {
    BlocklistCategoriesExactly();
    var i :| 0 <= i < |BlocklistCategories| && BlocklistCategories[i] == c;
    FlagIndexAt(i);
    ParseFlagName(AllFlags[i]);
  }

  /** The submit guard: `toggle_block` needs a non-empty category. */
  predicate Blocked(action: ActionKind, category: string) {
    action == ToggleBlock && category == ""
  }

  /** The request the dialog sends: the category only for `toggle_block`. */
  function BuildRequest(action: ActionKind, category: string): DeviceAction {
    DeviceAction(KindName(action), if action == ToggleBlock then Some(category) else None)
  }

  /** Every request that gets past the dialog's guard also passes the route's
      validation, so the dialog never provokes a 400; and the request
      carries a category exactly for `toggle_block`. */
  lemma SentRequestIsValid(action: ActionKind, category: string)
    requires !Blocked(action, category)
    ensures Routes.ValidateAction(BuildRequest(action, category)).None?
    ensures BuildRequest(action, category).category.Some? <==> action == ToggleBlock
  {
  }

  /** The requests the guard blocks are exactly those the route would answer
      with the same message and status 400. */
  lemma GuardMatchesRoute(action: ActionKind, category: string)
    ensures Blocked(action, category) <==>
              Routes.ValidateAction(BuildRequest(action, category)) == Some(Routes.CategoryRequired)
  {
  }

  /** A toggle sent with one of the offered categories flips one flag other
      than `safesearch`. */
  lemma OfferedToggleFlipsOneFlag(d: Device, category: string)
    requires category in BlocklistCategories
    ensures ParseFlag(category).Some? && ParseFlag(category).value != Safesearch
    ensures Controller.ApplyAction(d, "toggle_block", BuildRequest(ToggleBlock, category).category) ==
              Controller.ApplyAction(d, "toggle_block", Some(category))
    ensures Controller.ApplyAction(d, "toggle_block", Some(category)).blocklist.safesearch ==
              d.blocklist.safesearch
  {
    OfferedCategoryParses(category);
    Controller.ToggleEffect(d, ParseFlag(category).value);
    SetGet(d.blocklist, ParseFlag(category).value, !d.blocklist.Get(ParseFlag(category).value), Safesearch);
  }

  const CategoryRequiredMessage := "Category is required for toggle_block action"

  class DeviceActionDialog {
    var action: ActionKind
    var category: string
    var loading: bool
    var error: Option<string>
    /** How many times the parent's `onClose` callback has been called. */
    var closeCount: nat

    /** The category is either unset or one of the offered names (the
        category select offers nothing else); every method keeps this. */
    predicate Valid()
      reads this
    {
      category == "" || category in BlocklistCategories
    }

    /** The initial state of the form. */
    constructor ()
      ensures Valid()
      ensures action == Isolate && category == "" && !loading && error == None
      ensures closeCount == 0
    {
      action := Isolate;
      category := "";
      loading := false;
      error := None;
      closeCount := 0;
    }

    /** The action select's `onChange`. */
    method SelectAction(k: ActionKind)
      requires Valid()
      modifies this
      ensures Valid()
      ensures action == k && category == old(category)
      ensures loading == old(loading) && error == old(error) && closeCount == old(closeCount)
    {
      action := k;
    }

    /** The category select's `onChange`; it offers only the listed names. */
    method SelectCategory(c: string)
      requires c in BlocklistCategories
      modifies this
      ensures Valid()
      ensures category == c && action == old(action)
      ensures loading == old(loading) && error == old(error) && closeCount == old(closeCount)
    {
      category := c;
    }

    /** `handleSubmit`: a blocked submit only sets the error; otherwise the
        request goes to the store, whose outcome `response` (and the summary
        refresh's `summaryResponse`) the caller supplies. Success closes the
        dialog; failure keeps it open with the message; either way `loading`
        ends false. */
    method HandleSubmit(store: DeviceProvider, deviceId: int,
                        response: ApiResult<Device>, summaryResponse: ApiResult<Summary>)
      requires Valid()
      modifies this, store
      ensures Valid()
      ensures action == old(action) && category == old(category)
      ensures Blocked(old(action), old(category)) ==>
                && error == Some(CategoryRequiredMessage)
                && loading == old(loading) && closeCount == old(closeCount)
                && unchanged(store)
      ensures !Blocked(old(action), old(category)) ==>
                && !loading
                && store.loading == old(store.loading)
      ensures !Blocked(old(action), old(category)) && old(action) == ToggleBlock ==>
                && BuildRequest(old(action), old(category)).category == Some(old(category))
                && ParseFlag(old(category)).Some? && ParseFlag(old(category)).value != Safesearch
      ensures !Blocked(old(action), old(category)) && response.Ok? ==>
                && error == None && closeCount == old(closeCount) + 1
                && store.devices == ReplaceById(old(store.devices), deviceId, response.data)
                && store.calls == old(store.calls) +
                     [PostAction(deviceId, BuildRequest(old(action), old(category))), FetchSummary]
                && (summaryResponse.Ok? ==>
                      store.summary == Some(summaryResponse.data) && store.error == None)
                && (summaryResponse.Err? ==>
                      store.summary == old(store.summary) &&
                      store.error == Some(MessageOr(summaryResponse.failure, "Failed to fetch summary")))
      ensures !Blocked(old(action), old(category)) && response.Err? ==>
                && error == Some(MessageOr(response.failure, "Failed to perform action"))
                && closeCount == old(closeCount)
                && store.devices == old(store.devices) && store.summary == old(store.summary)
                && store.error == Some(MessageOr(response.failure, "Failed to perform action"))
                && store.calls == old(store.calls) +
                     [PostAction(deviceId, BuildRequest(old(action), old(category)))]
    {
      if Blocked(action, category) {
        error := Some(CategoryRequiredMessage);
        return;
      }
      if action == ToggleBlock {
        OfferedCategoryParses(category);
      }
      loading := true;
      error := None;
      var request := BuildRequest(action, category);
      var settled := store.PerformAction(deviceId, request, response, summaryResponse);
      match settled {
        case Resolved =>
          closeCount := closeCount + 1;
        case Rejected(f) =>
          error := Some(MessageOr(f, "Failed to perform action"));
      }
      loading := false;
    }

    /** `handleClose`: reset the form, then call `onClose`. */
    method HandleClose()
      modifies this
      ensures Valid()
      ensures action == Isolate && category == "" && error == None
      ensures loading == old(loading) && closeCount == old(closeCount) + 1
    {
      action := Isolate;
      category := "";
      error := None;
      closeCount := closeCount + 1;
    }
  }

  /** A session with the dialog: a toggle without a category is stopped
      before the store sees it; after choosing an offered category the
      action reaches the store, and a success closes the dialog. */
  method DialogScenario(store: DeviceProvider, d: Device, s: Summary, acted: Device)
    modifies store
  {
    var dialog := new DeviceActionDialog();
    dialog.SelectAction(ToggleBlock);
    var before := store.calls;
    dialog.HandleSubmit(store, d.id, Ok(acted), Ok(s));
    assert dialog.error == Some(CategoryRequiredMessage) && dialog.closeCount == 0;
    assert store.calls == before;
    dialog.SelectCategory("gaming");
    dialog.HandleSubmit(store, d.id, Ok(acted), Ok(s));
    assert store.calls == before + [PostAction(d.id, DeviceAction("toggle_block", Some("gaming"))), FetchSummary];
    assert dialog.closeCount == 1 && dialog.error == None && !dialog.loading;
    assert store.error == None && store.summary == Some(s);
    dialog.HandleClose();
    assert dialog.action == Isolate && dialog.category == "" && dialog.closeCount == 2;
  }
}
