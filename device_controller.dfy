/** The server-side device table: lookup by id, partial-patch merge, the
    three blocklist policy actions and the summary aggregate.

    The first half states each operation on values (the table is a
    `seq<Device>`); the class `DeviceController` at the end performs the
    same operations step by step, as the Python controller does, and its
    methods are proved equal to these definitions. */
module Controller {
  import opened Schemas

  // ---------------------------------------------------------------------
  // The group table

  /** The four groups the controller's constructor builds; `update_device`
      only ever assigns one of these. */
  function GroupTable(): (t: map<int, Group>)
    ensures t.Keys == {1, 2, 3, 4}
    ensures forall k :: k in t ==> t[k].id == k && (t[k].is_default <==> k == 1)
  {
    map[1 := Group(1, "Default Group", true),
        2 := Group(2, "Staff", false),
        3 := Group(3, "Guests", false),
        4 := Group(4, "IoT", false)]
  }

  // ---------------------------------------------------------------------
  // Lookup

  /** Position of the first device, in list order, whose id is `id`. */
  function FindIndex(ds: seq<Device>, id: int): (r: Option<nat>)
    ensures r.Some? ==> r.value < |ds| && ds[r.value].id == id
    ensures r.Some? ==> forall j :: 0 <= j < r.value ==> ds[j].id != id
    ensures r.None? <==> forall j :: 0 <= j < |ds| ==> ds[j].id != id
  {
    if ds == [] then None
    else if ds[0].id == id then Some(0)
    else
      match FindIndex(ds[1..], id)
      case None => None
      case Some(k) => Some(k + 1)
  }

  /** The result of an operation on the table: the device it returns (or
      `None` for "not found") and the table afterwards. */
  datatype TableResult = TableResult(device: Option<Device>, devices: seq<Device>)

  /** The ids of a table, in order. */
  function Ids(ds: seq<Device>): (r: seq<int>)
    ensures |r| == |ds|
    ensures forall j :: 0 <= j < |ds| ==> r[j] == ds[j].id
  {
    seq(|ds|, j requires 0 <= j < |ds| => ds[j].id)
  }

  // ---------------------------------------------------------------------
  // Partial update

  /** Whether some flag among `fields` is present in the patch (the
      `any(...)` generator of `update_device`). */
  function AnyPresent(u: DeviceUpdate, fields: seq<Flag>): (r: bool)
    ensures r <==> exists i :: 0 <= i < |fields| && u.Patch(fields[i]).Some?
  {
    if fields == [] then false
    else u.Patch(fields[0]).Some? || AnyPresent(u, fields[1..])
  }

  /** Checking `AllFlags` is checking every flag. */
  lemma AnyPresentAllFlags(u: DeviceUpdate)
    ensures AnyPresent(u, AllFlags) <==> exists f :: u.Patch(f).Some?
  {
    if f :| u.Patch(f).Some? {
      assert AllFlags[FlagIndex(f)] == f;
    }
  }

  /** The blocklist after the per-field merge: a present patch field
      overwrites its flag, an absent one keeps it. */
  function MergeBlocklist(b: Blocklist, u: DeviceUpdate): Blocklist {
    Blocklist(
      u.ads_trackers.GetOr(b.ads_trackers), u.gambling.GetOr(b.gambling),
      u.social_media.GetOr(b.social_media), u.porn.GetOr(b.porn),
      u.gaming.GetOr(b.gaming), u.streaming.GetOr(b.streaming),
      u.facebook.GetOr(b.facebook), u.instagram.GetOr(b.instagram),
      u.tiktok.GetOr(b.tiktok), u.netflix.GetOr(b.netflix),
      u.youtube.GetOr(b.youtube), u.ai.GetOr(b.ai),
      u.safesearch.GetOr(b.safesearch))
  }

  /** Flag by flag, the merge takes the patch value when it is present. */
  lemma MergeGet(b: Blocklist, u: DeviceUpdate, f: Flag)
    ensures MergeBlocklist(b, u).Get(f) == u.Patch(f).GetOr(b.Get(f))
  {
    match f
    case AdsTrackers =>
    case Gambling =>
    case SocialMedia =>
    case Porn =>
    case Gaming =>
    case Streaming =>
    case Facebook =>
    case Instagram =>
    case Tiktok =>
    case Netflix =>
    case Youtube =>
    case Ai =>
    case Safesearch =>
  }

  /** The loop of `update_device` over `blocklist_fields`: it writes each
      present patch field into the blocklist. */
  method PatchBlocklist(b: Blocklist, u: DeviceUpdate) returns (r: Blocklist)
    ensures r == MergeBlocklist(b, u)
  {
    r := b;
    for j := 0 to |AllFlags|
      invariant forall g :: r.Get(g) == if FlagIndex(g) < j then u.Patch(g).GetOr(b.Get(g)) else b.Get(g)
    {
      var f := AllFlags[j];
      FlagIndexAt(j);
      if u.Patch(f).Some? {
        SetSpec(r, f, u.Patch(f).value);
        r := r.Set(f, u.Patch(f).value);
      }
    }
    forall g ensures r.Get(g) == MergeBlocklist(b, u).Get(g) {
      MergeGet(b, u, g);
    }
    BlocklistExtensional(r, MergeBlocklist(b, u));
  }

  /** The `given_name` step of `update_device`. */
  function Renamed(d: Device, u: DeviceUpdate): Device {
    if u.given_name.Some? then d.(given_name := u.given_name.value) else d
  }

  /** The `group_id` step: only a key of the group table takes effect. */
  function Regrouped(d: Device, u: DeviceUpdate): Device {
    if u.group_id.Some? && u.group_id.value in GroupTable()
    then d.(group := GroupTable()[u.group_id.value])
    else d
  }

  /** The blocklist step: the merge, then the custom mark when some
      blocklist field is present. */
  function Reblocked(d: Device, u: DeviceUpdate): Device {
    var merged := d.(blocklist := MergeBlocklist(d.blocklist, u));
    if AnyPresent(u, AllFlags) then merged.(has_custom_blocklist := true) else merged
  }

  /** The device after `update_device` has applied patch `u` to it. */
  function ApplyUpdate(d: Device, u: DeviceUpdate): Device {
    Reblocked(Regrouped(Renamed(d, u), u), u)
  }

  /** The scalar rules of a partial update: a present `given_name`
      overwrites, and `group_id` takes effect only when it is a key of the
      group table (otherwise it is silently ignored). */
  lemma UpdateScalarRules(d: Device, u: DeviceUpdate)
    ensures ApplyUpdate(d, u).given_name == u.given_name.GetOr(d.given_name)
    ensures ApplyUpdate(d, u).group ==
              if u.group_id.Some? && u.group_id.value in GroupTable()
              then GroupTable()[u.group_id.value] else d.group
  {
  }

  /** A partial update changes no field other than `given_name`, `group`,
      `blocklist` and `has_custom_blocklist`. */
  lemma UpdateKeepsOtherFields(d: Device, u: DeviceUpdate)
    ensures ApplyUpdate(d, u) ==
              d.(given_name := ApplyUpdate(d, u).given_name, group := ApplyUpdate(d, u).group,
                 blocklist := ApplyUpdate(d, u).blocklist,
                 has_custom_blocklist := ApplyUpdate(d, u).has_custom_blocklist)
  {
  }

  /** The blocklist rules of a partial update: each flag takes its patch
      field when present and keeps its value when absent, and
      `has_custom_blocklist` becomes true exactly when some flag is present;
      it is never reset to false. */
  lemma UpdateBlocklistRules(d: Device, u: DeviceUpdate)
    ensures forall f :: ApplyUpdate(d, u).blocklist.Get(f) == u.Patch(f).GetOr(d.blocklist.Get(f))
    ensures ApplyUpdate(d, u).has_custom_blocklist <==>
              d.has_custom_blocklist || exists f :: u.Patch(f).Some?
  {
    assert Regrouped(Renamed(d, u), u).blocklist == d.blocklist;
    assert ApplyUpdate(d, u).blocklist == MergeBlocklist(d.blocklist, u);
    AnyPresentAllFlags(u);
    forall f ensures ApplyUpdate(d, u).blocklist.Get(f) == u.Patch(f).GetOr(d.blocklist.Get(f)) {
      MergeGet(d.blocklist, u, f);
    }
  }

  /** The patch with every field absent changes nothing. */
  lemma UpdateEmptyIsIdentity(d: Device)
    ensures ApplyUpdate(d, EmptyUpdate) == d
  {
    assert MergeBlocklist(d.blocklist, EmptyUpdate) == d.blocklist;
    forall i | 0 <= i < |AllFlags| ensures EmptyUpdate.Patch(AllFlags[i]).None? {
      EmptyPatch(AllFlags[i]);
    }
    assert !AnyPresent(EmptyUpdate, AllFlags);
  }

  /** The empty patch has no field present. */
  lemma EmptyPatch(f: Flag)
    ensures EmptyUpdate.Patch(f).None?
  {
    match f
    case AdsTrackers =>
    case Gambling =>
    case SocialMedia =>
    case Porn =>
    case Gaming =>
    case Streaming =>
    case Facebook =>
    case Instagram =>
    case Tiktok =>
    case Netflix =>
    case Youtube =>
    case Ai =>
    case Safesearch =>
  }

  /** Applying the same patch twice is the same as applying it once. */
  lemma UpdateIdempotent(d: Device, u: DeviceUpdate)
    ensures ApplyUpdate(ApplyUpdate(d, u), u) == ApplyUpdate(d, u)
  {
    var once := ApplyUpdate(d, u);
    UpdateScalarRules(d, u);
    UpdateKeepsOtherFields(d, u);
    UpdateBlocklistRules(d, u);
    UpdateScalarRules(once, u);
    UpdateKeepsOtherFields(once, u);
    UpdateBlocklistRules(once, u);
    BlocklistExtensional(ApplyUpdate(once, u).blocklist, once.blocklist);
  }

  /** `update_device` on the whole table. */
  function UpdateTable(ds: seq<Device>, id: int, u: DeviceUpdate): TableResult {
    match FindIndex(ds, id)
    case None => TableResult(None, ds)
    case Some(i) =>
      var d := ApplyUpdate(ds[i], u);
      TableResult(Some(d), ds[i := d])
  }

  /** An update returns `None` and leaves the table as it was exactly when
      no device has the id; otherwise it patches the first match only, so
      length, order, ids and every other device are unchanged. */
  lemma UpdateTableEffect(ds: seq<Device>, id: int, u: DeviceUpdate)
    ensures UpdateTable(ds, id, u).device.None? <==> forall j :: 0 <= j < |ds| ==> ds[j].id != id
    ensures UpdateTable(ds, id, u).device.None? ==> UpdateTable(ds, id, u).devices == ds
    ensures Ids(UpdateTable(ds, id, u).devices) == Ids(ds)
    ensures UpdateTable(ds, id, u).device.Some? ==>
              var i := FindIndex(ds, id).value;
              var after := UpdateTable(ds, id, u).devices;
              && UpdateTable(ds, id, u).device == Some(after[i])
              && after[i] == ApplyUpdate(ds[i], u)
              && forall j :: 0 <= j < |ds| && j != i ==> after[j] == ds[j]
  {
    match FindIndex(ds, id)
    case None =>
    case Some(i) =>
      UpdateScalarRules(ds[i], u);
      assert Ids(UpdateTable(ds, id, u).devices) == Ids(ds);
  }

  // ---------------------------------------------------------------------
  // Policy actions

  /** Every flag except `safesearch` set to `v`; `safesearch` kept. */
  function AllExceptSafesearch(b: Blocklist, v: bool): Blocklist {
    b.(ads_trackers := v, gambling := v, social_media := v, porn := v,
       gaming := v, streaming := v, facebook := v, instagram := v,
       tiktok := v, netflix := v, youtube := v, ai := v)
  }

  /** Flag by flag, `AllExceptSafesearch` sets all but `safesearch`. */
  lemma AllExceptSafesearchGet(b: Blocklist, v: bool, f: Flag)
    ensures AllExceptSafesearch(b, v).Get(f) == if f == Safesearch then b.Get(f) else v
  {
    match f
    case AdsTrackers =>
    case Gambling =>
    case SocialMedia =>
    case Porn =>
    case Gaming =>
    case Streaming =>
    case Facebook =>
    case Instagram =>
    case Tiktok =>
    case Netflix =>
    case Youtube =>
    case Ai =>
    case Safesearch =>
  }

  /** The loop of `isolate` and `release` over the blocklist's fields. */
  method SetAllExceptSafesearch(b: Blocklist, v: bool) returns (r: Blocklist)
    ensures r == AllExceptSafesearch(b, v)
  {
    r := b;
    for j := 0 to |AllFlags|
      invariant forall g :: r.Get(g) == if FlagIndex(g) < j && g != Safesearch then v else b.Get(g)
    {
      var f := AllFlags[j];
      FlagIndexAt(j);
      if f != Safesearch {
        SetSpec(r, f, v);
        r := r.Set(f, v);
      }
    }
    forall g ensures r.Get(g) == AllExceptSafesearch(b, v).Get(g) {
      AllExceptSafesearchGet(b, v, g);
    }
    BlocklistExtensional(r, AllExceptSafesearch(b, v));
  }

  /** The blocklist after `isolate`. */
  function Isolated(b: Blocklist): Blocklist {
    AllExceptSafesearch(b, true)
  }

  /** The blocklist after `release`. */
  function Released(b: Blocklist): Blocklist {
    AllExceptSafesearch(b, false).(safesearch := true)
  }

  /** Whether a category argument passes Python's truthiness test
      (`category` is neither `None` nor the empty string). */
  predicate HasCategory(category: Option<string>) {
    category.Some? && category.value != ""
  }

  /** The device after `perform_device_action(action, category)`. An
      unrecognised action, or a category that names no blocklist field,
      leaves the device as it was. */
  function ApplyAction(d: Device, action: string, category: Option<string>): Device {
    if action == "isolate" then
      d.(blocklist := Isolated(d.blocklist), has_custom_blocklist := true)
    else if action == "release" then
      d.(blocklist := Released(d.blocklist), has_custom_blocklist := true)
    else if action == "toggle_block" && HasCategory(category) then
      match ParseFlag(category.value)
      case Some(f) =>
        d.(blocklist := d.blocklist.Set(f, !d.blocklist.Get(f)), has_custom_blocklist := true)
      case None => d
    else d
  }

  /** `isolate` blocks every category except `safesearch`, which keeps its
      value, marks the blocklist custom and changes nothing else; any
      category sent along is ignored. */
  lemma IsolateEffect(d: Device, category: Option<string>)
    ensures forall f :: ApplyAction(d, "isolate", category).blocklist.Get(f) ==
                          if f == Safesearch then d.blocklist.Get(f) else true
    ensures ApplyAction(d, "isolate", category) ==
              d.(blocklist := ApplyAction(d, "isolate", category).blocklist, has_custom_blocklist := true)
  {
    forall f ensures ApplyAction(d, "isolate", category).blocklist.Get(f) ==
                     if f == Safesearch then d.blocklist.Get(f) else true {
      AllExceptSafesearchGet(d.blocklist, true, f);
    }
  }

  /** `release` unblocks every category except `safesearch`, turns
      `safesearch` on, marks the blocklist custom and changes nothing else;
      any category sent along is ignored. */
  lemma ReleaseEffect(d: Device, category: Option<string>)
    ensures forall f :: ApplyAction(d, "release", category).blocklist.Get(f) == (f == Safesearch)
    ensures ApplyAction(d, "release", category) ==
              d.(blocklist := ApplyAction(d, "release", category).blocklist, has_custom_blocklist := true)
  {
    forall f ensures ApplyAction(d, "release", category).blocklist.Get(f) == (f == Safesearch) {
      AllExceptSafesearchGet(d.blocklist, false, f);
      SetGet(AllExceptSafesearch(d.blocklist, false), Safesearch, true, f);
    }
  }

  /** `toggle_block` with the name of a field flips exactly that flag
      (`safesearch` included) and marks the blocklist custom. */
  lemma ToggleEffect(d: Device, f: Flag)
    ensures forall g :: ApplyAction(d, "toggle_block", Some(FlagName(f))).blocklist.Get(g) ==
                          if g == f then !d.blocklist.Get(g) else d.blocklist.Get(g)
    ensures ApplyAction(d, "toggle_block", Some(FlagName(f))) ==
              d.(blocklist := ApplyAction(d, "toggle_block", Some(FlagName(f))).blocklist,
                 has_custom_blocklist := true)
  {
    ParseFlagName(f);
    SetSpec(d.blocklist, f, !d.blocklist.Get(f));
  }

  /** Toggling the same category twice restores the blocklist. */
  lemma ToggleTwiceRestores(d: Device, category: Option<string>)
    ensures ApplyAction(ApplyAction(d, "toggle_block", category), "toggle_block", category).blocklist
            == d.blocklist
  {
    if HasCategory(category) && ParseFlag(category.value).Some? {
      var f := ParseFlag(category.value).value;
      var once := ApplyAction(d, "toggle_block", category);
      SetSpec(d.blocklist, f, !d.blocklist.Get(f));
      SetSpec(once.blocklist, f, !once.blocklist.Get(f));
      BlocklistExtensional(ApplyAction(once, "toggle_block", category).blocklist, d.blocklist);
    }
  }

  /** An action other than the three known ones, or `toggle_block` without
      a category naming a blocklist field, returns the device unchanged. */
  lemma ActionNoop(d: Device, action: string, category: Option<string>)
    requires action != "isolate" && action != "release"
    requires action == "toggle_block" ==> !HasCategory(category) || ParseFlag(category.value).None?
    ensures ApplyAction(d, action, category) == d
  {
  }

  /** `isolate` and `release` are idempotent, whatever categories the two
      requests carry. */
  lemma IsolateReleaseIdempotent(d: Device, c1: Option<string>, c2: Option<string>)
    ensures ApplyAction(ApplyAction(d, "isolate", c1), "isolate", c2) == ApplyAction(d, "isolate", c1)
    ensures ApplyAction(ApplyAction(d, "release", c1), "release", c2) == ApplyAction(d, "release", c1)
  {
    var i := ApplyAction(d, "isolate", c1);
    var r := ApplyAction(d, "release", c1);
    IsolateEffect(d, c1);
    IsolateEffect(i, c2);
    BlocklistExtensional(ApplyAction(i, "isolate", c2).blocklist, i.blocklist);
    ReleaseEffect(d, c1);
    ReleaseEffect(r, c2);
    BlocklistExtensional(ApplyAction(r, "release", c2).blocklist, r.blocklist);
  }

  /** `perform_device_action` on the whole table. */
  function ActionTable(ds: seq<Device>, id: int, action: string, category: Option<string>): TableResult {
    match FindIndex(ds, id)
    case None => TableResult(None, ds)
    case Some(i) =>
      var d := ApplyAction(ds[i], action, category);
      TableResult(Some(d), ds[i := d])
  }

  /** An action returns `None` and leaves the table as it was exactly when
      no device has the id; otherwise it changes the first match only. */
  lemma ActionTableEffect(ds: seq<Device>, id: int, action: string, category: Option<string>)
    ensures ActionTable(ds, id, action, category).device.None? <==>
              forall j :: 0 <= j < |ds| ==> ds[j].id != id
    ensures ActionTable(ds, id, action, category).device.None? ==>
              ActionTable(ds, id, action, category).devices == ds
    ensures Ids(ActionTable(ds, id, action, category).devices) == Ids(ds)
    ensures ActionTable(ds, id, action, category).device.Some? ==>
              var i := FindIndex(ds, id).value;
              var after := ActionTable(ds, id, action, category).devices;
              && ActionTable(ds, id, action, category).device == Some(after[i])
              && after[i] == ApplyAction(ds[i], action, category)
              && forall j :: 0 <= j < |ds| && j != i ==> after[j] == ds[j]
  {
    match FindIndex(ds, id)
    case None =>
    case Some(i) =>
      assert Ids(ActionTable(ds, id, action, category).devices) == Ids(ds);
  }

  // ---------------------------------------------------------------------
  // Summary

  /** Number of active devices (`sum(1 for device ... if device.is_active)`). */
  function CountActive(ds: seq<Device>): (n: nat)
    ensures n <= |ds|
  {
    if ds == [] then 0
    else CountActive(ds[..|ds| - 1]) + (if ds[|ds| - 1].is_active then 1 else 0)
  }

  /** The group name of each device, in order. */
  function GroupNames(ds: seq<Device>): (r: seq<string>)
    ensures |r| == |ds|
    ensures forall j :: 0 <= j < |ds| ==> r[j] == ds[j].group.name
  {
    seq(|ds|, j requires 0 <= j < |ds| => ds[j].group.name)
  }

  /** The AI category of each device, in order. */
  function CategoryNames(ds: seq<Device>): (r: seq<string>)
    ensures |r| == |ds|
    ensures forall j :: 0 <= j < |ds| ==> r[j] == ds[j].ai_classification.device_category
  {
    seq(|ds|, j requires 0 <= j < |ds| => ds[j].ai_classification.device_category)
  }

  /** The dictionary built by `d[k] = d.get(k, 0) + 1` over `names`. */
  function Tally(names: seq<string>): map<string, int> {
    if names == [] then map[]
    else
      var m := Tally(names[..|names| - 1]);
      var n := names[|names| - 1];
      m[n := (if n in m then m[n] else 0) + 1]
  }

  /** The counting loop of `get_summary`: `d[k] = d.get(k, 0) + 1` for
      each name in turn. */
  method TallyNames(names: seq<string>) returns (m: map<string, int>)
    ensures m == Tally(names)
  {
    m := map[];
    for i := 0 to |names|
      invariant m == Tally(names[..i])
    {
      assert names[..i + 1][..i] == names[..i];
      var name := names[i];
      m := m[name := (if name in m then m[name] else 0) + 1];
    }
    assert names[..|names|] == names;
  }

  /** Number of occurrences of `x` in `s`. */
  function Occurrences(s: seq<string>, x: string): nat {
    if s == [] then 0
    else Occurrences(s[..|s| - 1], x) + (if s[|s| - 1] == x then 1 else 0)
  }

  /** A tally has a key for exactly the names that occur, and each value is
      the (positive) number of occurrences of its key. */
  lemma {:induction false} TallyCounts(names: seq<string>)
    ensures forall x :: x in Tally(names) <==> x in names
    ensures forall x :: x in Tally(names) ==> Tally(names)[x] == Occurrences(names, x) >= 1
    ensures forall x :: x !in Tally(names) ==> Occurrences(names, x) == 0
  {
    if names != [] {
      var init := names[..|names| - 1];
      TallyCounts(init);
      assert names == init + [names[|names| - 1]];
      forall x ensures x in names <==> x in init || x == names[|names| - 1] {
        if x in names {
          var j :| 0 <= j < |names| && names[j] == x;
          if j < |names| - 1 { assert init[j] == x; }
        }
      }
    }
  }

  /** Some key of a non-empty map. */
  ghost function Pick(m: map<string, int>): (k: string)
    requires m != map[]
    ensures k in m
  {
    var k :| k in m; k
  }

  /** Sum of the values of a map. */
  ghost function MapSum(m: map<string, int>): int
    decreases |m|
  {
    if m == map[] then 0
    else
      var k := Pick(m);
      assert |m - {k}| < |m| by {
        assert (m - {k}).Keys == m.Keys - {k};
      }
      m[k] + MapSum(m - {k})
  }

  /** The sum of a map does not depend on which key is taken out first. */
  lemma {:induction false} MapSumRemove(m: map<string, int>, k: string)
    requires k in m
    ensures MapSum(m) == m[k] + MapSum(m - {k})
    decreases |m|
  {
    var p := Pick(m);
    if p != k {
      assert (m - {p}).Keys == m.Keys - {p};
      assert (m - {k}).Keys == m.Keys - {k};
      MapSumRemove(m - {p}, k);
      MapSumRemove(m - {k}, p);
      assert m - {p} - {k} == m - {k} - {p};
    }
  }

  /** The values of a tally sum to the number of names tallied. */
  lemma {:induction false} TallySum(names: seq<string>)
    ensures MapSum(Tally(names)) == |names|
  {
    if names != [] {
      var init := names[..|names| - 1];
      var n := names[|names| - 1];
      var m := Tally(init);
      TallySum(init);
      var m' := m[n := (if n in m then m[n] else 0) + 1];
      MapSumRemove(m', n);
      assert m' - {n} == m - {n};
      if n in m {
        MapSumRemove(m, n);
      } else {
        assert m - {n} == m;
      }
    }
  }

  /** The aggregate `get_summary` computes over a table. */
  function SummaryOf(ds: seq<Device>): Summary {
    Summary(|ds|, CountActive(ds), Tally(GroupNames(ds)), Tally(CategoryNames(ds)))
  }

  /** What the summary says about the table: `total` is its length,
      `active` is at most `total`, and each dictionary has a key for
      exactly the names that occur, counts each one at least once and has
      values summing to `total`. */
  lemma SummaryFacts(ds: seq<Device>)
    ensures SummaryOf(ds).total == |ds|
    ensures 0 <= SummaryOf(ds).active <= SummaryOf(ds).total
    ensures forall g :: g in SummaryOf(ds).by_group <==> g in GroupNames(ds)
    ensures forall g :: g in SummaryOf(ds).by_group ==> SummaryOf(ds).by_group[g] >= 1
    ensures MapSum(SummaryOf(ds).by_group) == SummaryOf(ds).total
    ensures forall c :: c in SummaryOf(ds).by_category <==> c in CategoryNames(ds)
    ensures forall c :: c in SummaryOf(ds).by_category ==> SummaryOf(ds).by_category[c] >= 1
    ensures MapSum(SummaryOf(ds).by_category) == SummaryOf(ds).total
  {
    TallyCounts(GroupNames(ds));
    TallyCounts(CategoryNames(ds));
    TallySum(GroupNames(ds));
    TallySum(CategoryNames(ds));
  }

  // ---------------------------------------------------------------------
  // The controller object

  /** The in-memory device table and its fixed group table. Loading from
      and saving to the JSON file are not modelled: the initial list is a
      constructor argument and saving is a no-op. */
  class DeviceController {
    var devices: seq<Device>
    const groups: map<int, Group>

    constructor (initial: seq<Device>)
      ensures devices == initial && groups == GroupTable()
    {
      devices := initial;
      groups := GroupTable();
    }

    /** `get_all_devices`: the stored list, in stored order. */
    method GetAllDevices() returns (r: seq<Device>)
      ensures r == devices
    {
      r := devices;
    }

    /** The position `get_device_by_id`'s loop stops at, if any. */
    method LocateDevice(id: int) returns (k: Option<nat>)
      ensures k == FindIndex(devices, id)
    {
      for i := 0 to |devices|
        invariant forall j :: 0 <= j < i ==> devices[j].id != id
      {
        if devices[i].id == id {
          return Some(i);
        }
      }
      return None;
    }

    /** `get_device_by_id`: the first device in list order with that id,
        `None` exactly when there is none. */
    method GetDeviceById(id: int) returns (r: Option<Device>)
      ensures r.None? <==> forall j :: 0 <= j < |devices| ==> devices[j].id != id
      ensures r.Some? ==> r.value.id == id && r.value == devices[FindIndex(devices, id).value]
    {
      var k := LocateDevice(id);
      if k.None? {
        return None;
      }
      return Some(devices[k.value]);
    }

    /** `update_device`: merges the patch into the first device with the id. */
    method UpdateDevice(id: int, u: DeviceUpdate) returns (r: Option<Device>)
      requires groups == GroupTable()
      modifies this
      ensures TableResult(r, devices) == UpdateTable(old(devices), id, u)
    {
      var k := LocateDevice(id);
      if k.None? {
        return None;
      }
      var i := k.value;
      var d := devices[i];
      if u.given_name.Some? {
        d := d.(given_name := u.given_name.value);
      }
      if u.group_id.Some? && u.group_id.value in groups {
        d := d.(group := groups[u.group_id.value]);
      }
      var merged := PatchBlocklist(d.blocklist, u);
      d := d.(blocklist := merged);
      if AnyPresent(u, AllFlags) {
        d := d.(has_custom_blocklist := true);
      }
      devices := devices[i := d];
      return Some(d);
    }

    /** `perform_device_action`: applies the action to the first device
        with the id. */
    method PerformDeviceAction(id: int, action: string, category: Option<string>)
      returns (r: Option<Device>)
      modifies this
      ensures TableResult(r, devices) == ActionTable(old(devices), id, action, category)
    {
      var k := LocateDevice(id);
      if k.None? {
        return None;
      }
      var i := k.value;
      var d := devices[i];
      if action == "isolate" {
        var b := SetAllExceptSafesearch(d.blocklist, true);
        d := d.(blocklist := b, has_custom_blocklist := true);
      } else if action == "release" {
        var b := SetAllExceptSafesearch(d.blocklist, false);
        d := d.(blocklist := b.(safesearch := true), has_custom_blocklist := true);
      } else if action == "toggle_block" && HasCategory(category) {
        var f := ParseFlag(category.value);
        if f.Some? {
          var current := d.blocklist.Get(f.value);
          d := d.(blocklist := d.blocklist.Set(f.value, !current), has_custom_blocklist := true);
        }
      }
      devices := devices[i := d];
      return Some(d);
    }

    /** `get_summary`: counts computed by loops over the table. */
    method GetSummary() returns (s: Summary)
      ensures s == SummaryOf(devices)
      ensures forall g :: g in s.by_group <==> exists j :: 0 <= j < |devices| && devices[j].group.name == g
      ensures forall c :: c in s.by_category <==>
                exists j :: 0 <= j < |devices| && devices[j].ai_classification.device_category == c
      ensures s.total == |devices| && 0 <= s.active <= s.total
      ensures forall g :: g in s.by_group ==> s.by_group[g] >= 1
      ensures forall c :: c in s.by_category ==> s.by_category[c] >= 1
      ensures MapSum(s.by_group) == s.total && MapSum(s.by_category) == s.total
    {
      var total := |devices|;
      var active := 0;
      for i := 0 to |devices|
        invariant active == CountActive(devices[..i])
      {
        assert devices[..i + 1][..i] == devices[..i];
        if devices[i].is_active {
          active := active + 1;
        }
      }
      var byGroup := TallyNames(GroupNames(devices));
      var byCategory := TallyNames(CategoryNames(devices));
      assert devices[..|devices|] == devices;
      s := Summary(total, active, byGroup, byCategory);
      assert s == SummaryOf(devices);
      SummaryFacts(devices);
    }
  }
}
