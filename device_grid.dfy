/** Pure helpers of the device grid: the search filter, the priority colour,
    the blocked-count status and the icon choice. Strings are compared
    after an ASCII lower-casing, and "whitespace" is ECMAScript's set of
    white space and line terminator characters. */
module Grid {
  import opened Schemas
  import Controller

  // ---------------------------------------------------------------------
  // Strings

  /** `toLowerCase` on one character, for the ASCII letters. */
  function LowerChar(c: char): char {
    if 'A' <= c <= 'Z' then (c as int + 32) as char else c
  }

  /** `toLowerCase` on a string. */
  function Lower(s: string): (r: string)
    ensures |r| == |s|
    ensures forall i :: 0 <= i < |s| ==> r[i] == LowerChar(s[i])
  {
    if s == [] then [] else [LowerChar(s[0])] + Lower(s[1..])
  }

  /** The characters `String.prototype.trim` removes. */
  predicate IsWhitespace(c: char) {
    || c == ' ' || c == '\t' || c == '\n' || c == '\r' || c == '\U{000B}' || c == '\U{000C}'
    || c == '\U{00A0}' || c == '\U{1680}' || ('\U{2000}' <= c <= '\U{200A}')
    || c == '\U{2028}' || c == '\U{2029}' || c == '\U{202F}' || c == '\U{205F}'
    || c == '\U{3000}' || c == '\U{FEFF}'
  }

  /** `!s.trim()`: the string is empty or whitespace only. */
  predicate IsBlank(s: string) {
    forall i :: 0 <= i < |s| ==> IsWhitespace(s[i])
  }

  /** Whether `p` is a prefix of `s`. */
  predicate IsPrefix(p: string, s: string) {
    |p| <= |s| && s[..|p|] == p
  }

  /** `hay.includes(needle)`: `needle` occurs at some position of `hay`. */
  predicate Contains(hay: string, needle: string)
    decreases |hay|
  {
    IsPrefix(needle, hay) || (hay != [] && Contains(hay[1..], needle))
  }

  /** `needle` occurs in `hay` at offset `k`. */
  predicate OccursAt(hay: string, needle: string, k: int) {
    0 <= k && k + |needle| <= |hay| && hay[k..k + |needle|] == needle
  }

  /** `Contains` is "occurs at some offset". */
  lemma {:induction false} ContainsAt(hay: string, needle: string)
    ensures Contains(hay, needle) <==> exists k :: OccursAt(hay, needle, k)
    decreases |hay|
  {
    if IsPrefix(needle, hay) {
      assert OccursAt(hay, needle, 0);
    } else if hay != [] {
      ContainsAt(hay[1..], needle);
      if Contains(hay[1..], needle) {
        var k :| OccursAt(hay[1..], needle, k);
        assert hay[k + 1..k + 1 + |needle|] == hay[1..][k..k + |needle|];
        assert OccursAt(hay, needle, k + 1);
      }
      if k :| OccursAt(hay, needle, k) {
        assert k != 0;
        assert hay[k..k + |needle|] == hay[1..][k - 1..k - 1 + |needle|];
        assert OccursAt(hay[1..], needle, k - 1);
      }
    }
  }

  // ---------------------------------------------------------------------
  // The search filter

  /** The fields the search looks at, each lower-cased, contain the
      (already lower-cased) query. */
  predicate Matches(d: Device, query: string) {
    || Contains(Lower(d.given_name), query)
    || Contains(Lower(d.hostname), query)
    || Contains(Lower(d.ip), query)
    || Contains(Lower(d.vendor), query)
    || Contains(Lower(d.os_name), query)
    || Contains(Lower(d.group.name), query)
    || Contains(Lower(d.ai_classification.device_category), query)
  }

  /** `devices.filter(device => Matches(device, query))`. */
  function Select(ds: seq<Device>, query: string): (r: seq<Device>)
    ensures |r| <= |ds|
    ensures forall x :: x in r <==> x in ds && Matches(x, query)
  {
    if ds == [] then []
    else if Matches(ds[0], query) then [ds[0]] + Select(ds[1..], query)
    else Select(ds[1..], query)
  }

  /** `filteredDevices`: the whole list for a blank query, otherwise the
      devices matching the lower-cased, untrimmed query. */
  function FilterDevices(ds: seq<Device>, searchQuery: string): seq<Device> {
    if IsBlank(searchQuery) then ds else Select(ds, Lower(searchQuery))
  }

  /** `a` is obtained from `b` by deleting entries, keeping order. */
  ghost predicate SubsequenceOf(a: seq<Device>, b: seq<Device>)
    decreases |b|
  {
    if a == [] then true
    else if b == [] then false
    else (a[0] == b[0] && SubsequenceOf(a[1..], b[1..])) || SubsequenceOf(a, b[1..])
  }

  /** The filter keeps the order of the list: its result is a subsequence
      of the input. */
  lemma {:induction false} SelectIsSubsequence(ds: seq<Device>, query: string)
    ensures SubsequenceOf(Select(ds, query), ds)
  {
    if ds != [] {
      SelectIsSubsequence(ds[1..], query);
      if Matches(ds[0], query) {
        assert Select(ds, query)[1..] == Select(ds[1..], query);
      }
    }
  }

  /** The filter keeps every copy of a matching entry and no copy of any
      other: each device occurs in the result as often as in the list if
      it matches, and not at all otherwise. */
  lemma {:induction false} SelectMultiset(ds: seq<Device>, query: string)
    ensures forall x :: multiset(Select(ds, query))[x] ==
              if Matches(x, query) then multiset(ds)[x] else 0
  {
    if ds != [] {
      SelectMultiset(ds[1..], query);
      assert ds == [ds[0]] + ds[1..];
    }
  }

  /** The search filter: a blank query returns the list unchanged;
      otherwise the result is an order-preserving subsequence of the list
      holding exactly the devices that match the lower-cased query, each
      as often as the list does. */
  lemma FilterDevicesSpec(ds: seq<Device>, searchQuery: string)
    ensures IsBlank(searchQuery) ==> FilterDevices(ds, searchQuery) == ds
    ensures SubsequenceOf(FilterDevices(ds, searchQuery), ds)
    ensures !IsBlank(searchQuery) ==>
              forall x :: x in FilterDevices(ds, searchQuery) <==> x in ds && Matches(x, Lower(searchQuery))
    ensures !IsBlank(searchQuery) ==>
              forall x :: multiset(FilterDevices(ds, searchQuery))[x] ==
                if Matches(x, Lower(searchQuery)) then multiset(ds)[x] else 0
  {
    if IsBlank(searchQuery) {
      SubsequenceOfSelf(ds);
    } else {
      SelectIsSubsequence(ds, Lower(searchQuery));
      SelectMultiset(ds, Lower(searchQuery));
    }
  }

  /** Every list is a subsequence of itself. */
  lemma {:induction false} SubsequenceOfSelf(ds: seq<Device>)
    ensures SubsequenceOf(ds, ds)
  {
    if ds != [] {
      SubsequenceOfSelf(ds[1..]);
    }
  }

  /** The search is case-insensitive in the query: queries that lower-case
      to the same string select the same devices. */
  lemma FilterIgnoresQueryCase(ds: seq<Device>, q1: string, q2: string)
    requires Lower(q1) == Lower(q2)
    ensures FilterDevices(ds, q1) == FilterDevices(ds, q2)
  {
    BlankIgnoresCase(q1);
    BlankIgnoresCase(q2);
  }

  /** Lower-casing changes no white space, so a query is blank exactly when
      its lower-cased form is. */
  lemma BlankIgnoresCase(q: string)
    ensures IsBlank(Lower(q)) <==> IsBlank(q)
  {
  }

  // ---------------------------------------------------------------------
  // Priority, status and icon

  /** The chip colours of `getDevicePriority`. */
  datatype Priority = Error | Warning | Success

  /** `getDevicePriority`: inactivity takes precedence over a custom
      blocklist. */
  function DevicePriority(d: Device): Priority {
    if !d.is_active then Error
    else if d.has_custom_blocklist then Warning
    else Success
  }

  /** Each priority is given for exactly one kind of device. */
  lemma PriorityClassification(d: Device)
    ensures DevicePriority(d) == Error <==> !d.is_active
    ensures DevicePriority(d) == Warning <==> d.is_active && d.has_custom_blocklist
    ensures DevicePriority(d) == Success <==> d.is_active && !d.has_custom_blocklist
  {
  }

  /** After any of the three actions takes effect the device is marked
      custom, so it is never shown as `Success`. */
  lemma ActionedDeviceNeverSuccess(d: Device, action: string, category: Option<string>)
    requires Controller.ApplyAction(d, action, category) != d || d.has_custom_blocklist
    ensures DevicePriority(Controller.ApplyAction(d, action, category)) != Success
  {
  }

  /** Number of `true` entries (`filter(Boolean).length`). */
  function CountTrue(vs: seq<bool>): (n: nat)
    ensures n <= |vs|
  {
    if vs == [] then 0 else (if vs[0] then 1 else 0) + CountTrue(vs[1..])
  }

  /** `getBlocklistStatus` as its two numbers: blocked and total flags. */
  datatype BlocklistStatus = BlocklistStatus(blocked: nat, total: nat)

  /** `getBlocklistStatus`: how many of the blocklist's fields are true,
      out of how many fields it has. */
  function GetBlocklistStatus(b: Blocklist): (s: BlocklistStatus)
    ensures s.blocked <= s.total == 13
  {
    BlocklistStatus(CountTrue(b.Values()), |b.Values()|)
  }

  /** None blocked exactly when every flag is false, all blocked exactly
      when every flag is true. */
  lemma {:induction false} CountTrueExtremes(vs: seq<bool>)
    ensures CountTrue(vs) == 0 <==> forall i :: 0 <= i < |vs| ==> !vs[i]
    ensures CountTrue(vs) == |vs| <==> forall i :: 0 <= i < |vs| ==> vs[i]
  {
    if vs != [] {
      CountTrueExtremes(vs[1..]);
      assert forall i :: 1 <= i < |vs| ==> vs[i] == vs[1..][i - 1];
    }
  }

  /** A list that is all `true` except perhaps at `k` counts `|vs| - 1`
      plus one more when `vs[k]` holds. */
  lemma {:induction false} CountTrueAllBut(vs: seq<bool>, k: nat)
    requires k < |vs|
    requires forall i :: 0 <= i < |vs| && i != k ==> vs[i]
    ensures CountTrue(vs) == |vs| - 1 + (if vs[k] then 1 else 0)
  {
    if k > 0 {
      CountTrueAllBut(vs[1..], k - 1);
    } else {
      CountTrueExtremes(vs[1..]);
      assert forall i :: 0 <= i < |vs[1..]| ==> vs[1..][i] == vs[i + 1];
    }
  }

  /** A list that is all `false` except perhaps at `k` counts one exactly
      when `vs[k]` holds. */
  lemma {:induction false} CountTrueOnly(vs: seq<bool>, k: nat)
    requires k < |vs|
    requires forall i :: 0 <= i < |vs| && i != k ==> !vs[i]
    ensures CountTrue(vs) == if vs[k] then 1 else 0
  {
    if k > 0 {
      CountTrueOnly(vs[1..], k - 1);
    } else {
      CountTrueExtremes(vs[1..]);
      assert forall i :: 0 <= i < |vs[1..]| ==> vs[1..][i] == vs[i + 1];
    }
  }

  /** An isolated device shows 12 of 13 blocked, or 13 when `safesearch`
      was on; a released one shows exactly 1 (`safesearch`). A category sent
      with either action makes no difference. */
  lemma StatusAfterActions(d: Device, category: Option<string>)
    ensures GetBlocklistStatus(Controller.ApplyAction(d, "isolate", category).blocklist).blocked ==
              12 + (if d.blocklist.safesearch then 1 else 0)
    ensures GetBlocklistStatus(Controller.ApplyAction(d, "release", category).blocklist).blocked == 1
  {
    var iso := Controller.ApplyAction(d, "isolate", category).blocklist;
    var rel := Controller.ApplyAction(d, "release", category).blocklist;
    Controller.IsolateEffect(d, category);
    Controller.ReleaseEffect(d, category);
    forall i | 0 <= i < |AllFlags|
      ensures iso.Values()[i] == (if i == 12 then d.blocklist.safesearch else true)
      ensures rel.Values()[i] == (i == 12)
    {
      FlagIndexAt(i);
      ValuesAt(iso, AllFlags[i]);
      ValuesAt(rel, AllFlags[i]);
    }
    CountTrueAllBut(iso.Values(), 12);
    CountTrueOnly(rel.Values(), 12);
  }

  /** The icons of `getDeviceIcon`. */
  datatype Icon = Computer | Phone | Router | Storage

  /** `getDeviceIcon`: the first rule matching the lower-cased category wins. */
  function DeviceIcon(d: Device): Icon {
    var category := Lower(d.ai_classification.device_category);
    if Contains(category, "workstation") || Contains(category, "desktop") then Computer
    else if Contains(category, "mobile") || Contains(category, "phone") then Phone
    else if Contains(category, "network") || Contains(category, "gateway") then Router
    else Storage
  }

  /** The keyword table behind `getDeviceIcon`, in order of precedence. */
  const IconKeywords: seq<(Icon, seq<string>)> :=
    [(Computer, ["workstation", "desktop"]),
     (Phone, ["mobile", "phone"]),
     (Router, ["network", "gateway"])]

  /** Some keyword of the list occurs in `c`. */
  predicate ContainsAny(c: string, words: seq<string>) {
    exists k :: 0 <= k < |words| && Contains(c, words[k])
  }

  /** No keyword of the first `i` rows occurs in `c`. */
  predicate NoRuleBefore(c: string, rules: seq<(Icon, seq<string>)>, i: int)
    requires 0 <= i <= |rules|
  {
    forall j :: 0 <= j < i ==> !ContainsAny(c, rules[j].1)
  }

  /** The icon of the first table row one of whose keywords occurs in `c`,
      and `Storage` when none does. */
  function FirstRuleIcon(c: string, rules: seq<(Icon, seq<string>)>): (r: Icon)
    ensures NoRuleBefore(c, rules, |rules|) ==> r == Storage
    ensures forall i :: 0 <= i < |rules| && ContainsAny(c, rules[i].1) && NoRuleBefore(c, rules, i) ==>
              r == rules[i].0
  {
    if rules == [] then Storage
    else if ContainsAny(c, rules[0].1) then rules[0].0
    else
      assert forall i :: 1 <= i <= |rules| && NoRuleBefore(c, rules[1..], i - 1) ==> NoRuleBefore(c, rules, i);
      FirstRuleIcon(c, rules[1..])
  }

  /** `getDeviceIcon` is the first-match lookup in the keyword table; in
      particular a device shows the storage icon exactly when none of the
      six keywords occurs in its lower-cased category. */
  lemma IconByTable(d: Device)
    ensures DeviceIcon(d) == FirstRuleIcon(Lower(d.ai_classification.device_category), IconKeywords)
    ensures DeviceIcon(d) == Storage <==>
              forall i :: 0 <= i < |IconKeywords| ==>
                !ContainsAny(Lower(d.ai_classification.device_category), IconKeywords[i].1)
  {
    var c := Lower(d.ai_classification.device_category);
    assert ContainsAny(c, IconKeywords[0].1) <==> Contains(c, "workstation") || Contains(c, "desktop") by {
      assert IconKeywords[0].1[0] == "workstation" && IconKeywords[0].1[1] == "desktop";
    }
    assert ContainsAny(c, IconKeywords[1].1) <==> Contains(c, "mobile") || Contains(c, "phone") by {
      assert IconKeywords[1].1[0] == "mobile" && IconKeywords[1].1[1] == "phone";
    }
    assert ContainsAny(c, IconKeywords[2].1) <==> Contains(c, "network") || Contains(c, "gateway") by {
      assert IconKeywords[2].1[0] == "network" && IconKeywords[2].1[1] == "gateway";
    }
    assert FirstRuleIcon(c, IconKeywords[1..][1..][1..]) == Storage;
    assert FirstRuleIcon(c, IconKeywords[1..][1..]) ==
             if ContainsAny(c, IconKeywords[2].1) then Router else Storage;
    assert FirstRuleIcon(c, IconKeywords[1..]) ==
             if ContainsAny(c, IconKeywords[1].1) then Phone else FirstRuleIcon(c, IconKeywords[1..][1..]);
  }

  /** The icon rules in order of precedence. */
  lemma IconRules(d: Device)
    ensures var c := Lower(d.ai_classification.device_category);
            && (DeviceIcon(d) == Computer <==> Contains(c, "workstation") || Contains(c, "desktop"))
            && (DeviceIcon(d) == Phone <==>
                  !(Contains(c, "workstation") || Contains(c, "desktop")) &&
                  (Contains(c, "mobile") || Contains(c, "phone")))
            && (DeviceIcon(d) == Storage <==>
                  !Contains(c, "workstation") && !Contains(c, "desktop") &&
                  !Contains(c, "mobile") && !Contains(c, "phone") &&
                  !Contains(c, "network") && !Contains(c, "gateway"))
  {
  }
}
