/** Records exchanged by the device API: groups, the 13-flag blocklist,
    devices, partial updates, action requests and the summary aggregate. */
module Schemas {

  /** An optional value: a JSON field that may be absent (`None` in Python,
      `undefined` in TypeScript). */
  datatype Option<+T> = None | Some(value: T) {
    /** The carried value, or `default` when absent. */
    function GetOr(default: T): T {
      match this
      case Some(v) => v
      case None => default
    }
  }

  /** A device group: the server owns a fixed table of them. */
  datatype Group = Group(id: int, name: string, is_default: bool)

  /** The 13 content categories of a blocklist, one per field. */
  datatype Flag =
    | AdsTrackers | Gambling | SocialMedia | Porn | Gaming | Streaming
    | Facebook | Instagram | Tiktok | Netflix | Youtube | Ai | Safesearch

  /** The blocklist fields in declaration order (the order Python's
      `model_fields` and the controller's `blocklist_fields` list use). */
  const AllFlags: seq<Flag> :=
    [AdsTrackers, Gambling, SocialMedia, Porn, Gaming, Streaming,
     Facebook, Instagram, Tiktok, Netflix, Youtube, Ai, Safesearch]

  /** Position of a flag in `AllFlags`. */
  function FlagIndex(f: Flag): (i: nat)
    ensures i < |AllFlags| && AllFlags[i] == f
  {
    match f
    case AdsTrackers => 0
    case Gambling => 1
    case SocialMedia => 2
    case Porn => 3
    case Gaming => 4
    case Streaming => 5
    case Facebook => 6
    case Instagram => 7
    case Tiktok => 8
    case Netflix => 9
    case Youtube => 10
    case Ai => 11
    case Safesearch => 12
  }

  /** `AllFlags` lists every flag once: the flag at position `i` has index `i`. */
  lemma FlagIndexAt(i: nat)
    requires i < |AllFlags|
    ensures FlagIndex(AllFlags[i]) == i
  {
  }

  /** The wire name of a flag (the Pydantic field name). */
  function FlagName(f: Flag): string {
    match f
    case AdsTrackers => "ads_trackers"
    case Gambling => "gambling"
    case SocialMedia => "social_media"
    case Porn => "porn"
    case Gaming => "gaming"
    case Streaming => "streaming"
    case Facebook => "facebook"
    case Instagram => "instagram"
    case Tiktok => "tiktok"
    case Netflix => "netflix"
    case Youtube => "youtube"
    case Ai => "ai"
    case Safesearch => "safesearch"
  }

  /** The flag whose field name is `s`, if `s` names one of the 13 fields. */
  function ParseFlag(s: string): (r: Option<Flag>)
    ensures r.Some? ==> FlagName(r.value) == s
  {
    if s == "ads_trackers" then Some(AdsTrackers)
    else if s == "gambling" then Some(Gambling)
    else if s == "social_media" then Some(SocialMedia)
    else if s == "porn" then Some(Porn)
    else if s == "gaming" then Some(Gaming)
    else if s == "streaming" then Some(Streaming)
    else if s == "facebook" then Some(Facebook)
    else if s == "instagram" then Some(Instagram)
    else if s == "tiktok" then Some(Tiktok)
    else if s == "netflix" then Some(Netflix)
    else if s == "youtube" then Some(Youtube)
    else if s == "ai" then Some(Ai)
    else if s == "safesearch" then Some(Safesearch)
    else None
  }

  /** Parsing a field name gives back its flag, so `ParseFlag` is the
      inverse of `FlagName` and exactly the 13 names are recognised. */
  lemma ParseFlagName(f: Flag)
    ensures ParseFlag(FlagName(f)) == Some(f)
  {
  }

  /** Per-device content filtering: one required boolean per category. */
  datatype Blocklist = Blocklist(
    ads_trackers: bool, gambling: bool, social_media: bool, porn: bool,
    gaming: bool, streaming: bool, facebook: bool, instagram: bool,
    tiktok: bool, netflix: bool, youtube: bool, ai: bool, safesearch: bool)
  {
    /** `getattr(blocklist, name)` for the field of flag `f`. */
    function Get(f: Flag): bool {
      match f
      case AdsTrackers => ads_trackers
      case Gambling => gambling
      case SocialMedia => social_media
      case Porn => porn
      case Gaming => gaming
      case Streaming => streaming
      case Facebook => facebook
      case Instagram => instagram
      case Tiktok => tiktok
      case Netflix => netflix
      case Youtube => youtube
      case Ai => ai
      case Safesearch => safesearch
    }

    /** `setattr(blocklist, name, v)`; `SetGet` says that only the field
        of `f` changes. */
    function Set(f: Flag, v: bool): Blocklist {
      match f
      case AdsTrackers => this.(ads_trackers := v)
      case Gambling => this.(gambling := v)
      case SocialMedia => this.(social_media := v)
      case Porn => this.(porn := v)
      case Gaming => this.(gaming := v)
      case Streaming => this.(streaming := v)
      case Facebook => this.(facebook := v)
      case Instagram => this.(instagram := v)
      case Tiktok => this.(tiktok := v)
      case Netflix => this.(netflix := v)
      case Youtube => this.(youtube := v)
      case Ai => this.(ai := v)
      case Safesearch => this.(safesearch := v)
    }

    /** The field values in declaration order (`Object.values(blocklist)`). */
    function Values(): (vs: seq<bool>)
      ensures |vs| == |AllFlags|
    {
      [ads_trackers, gambling, social_media, porn, gaming, streaming,
       facebook, instagram, tiktok, netflix, youtube, ai, safesearch]
    }
  }

  /** Setting a flag changes that flag and no other. */
  lemma SetGet(b: Blocklist, f: Flag, v: bool, g: Flag)
    ensures b.Set(f, v).Get(g) == if g == f then v else b.Get(g)
  {
    match g
    case AdsTrackers =>
    case Gambling =>
    case SocialMedia =>
    case Porn =>
    case Gaming =>
    case Streaming =>
    case Facebook =>
    case Instagram =>
    case Tiktok =>
    case Netflix =>
    case Youtube =>
    case Ai =>
    case Safesearch =>
  }

  /** The quantified form of `SetGet`. */
  lemma SetSpec(b: Blocklist, f: Flag, v: bool)
    ensures forall g :: b.Set(f, v).Get(g) == if g == f then v else b.Get(g)
  {
    forall g ensures b.Set(f, v).Get(g) == if g == f then v else b.Get(g) {
      SetGet(b, f, v, g);
    }
  }

  /** `Values` lists the flags in the order of `AllFlags`. */
  lemma ValuesAt(b: Blocklist, f: Flag)
    ensures b.Values()[FlagIndex(f)] == b.Get(f)
  {
    match f
    case AdsTrackers =>
    case Gambling =>
    case SocialMedia =>
    case Porn =>
    case Gaming =>
    case Streaming =>
    case Facebook =>
    case Instagram =>
    case Tiktok =>
    case Netflix =>
    case Youtube =>
    case Ai =>
    case Safesearch =>
  }

  /** Two blocklists that agree on every flag are equal. */
  lemma BlocklistExtensional(a: Blocklist, b: Blocklist)
    requires forall f :: a.Get(f) == b.Get(f)
    ensures a == b
  {
    // Mentioning every flag instantiates the hypothesis once per field.
    var atEveryFlag :=
      [a.Get(AdsTrackers),
       a.Get(Gambling),
       a.Get(SocialMedia),
       a.Get(Porn),
       a.Get(Gaming),
       a.Get(Streaming),
       a.Get(Facebook),
       a.Get(Instagram),
       a.Get(Tiktok),
       a.Get(Netflix),
       a.Get(Youtube),
       a.Get(Ai),
       a.Get(Safesearch)] +
      [b.Get(AdsTrackers),
       b.Get(Gambling),
       b.Get(SocialMedia),
       b.Get(Porn),
       b.Get(Gaming),
       b.Get(Streaming),
       b.Get(Facebook),
       b.Get(Instagram),
       b.Get(Tiktok),
       b.Get(Netflix),
       b.Get(Youtube),
       b.Get(Ai),
       b.Get(Safesearch)];
  }

  /** The AI classifier's verdict on a device; `confidence` is a float in [0, 1]. */
  datatype AIClassification = AIClassification(
    device_type: string, device_category: string, confidence: real,
    reasoning: string, indicators: seq<string>, last_classified: string)

  /** A tracked network device; `id` is its key in the device table. */
  datatype Device = Device(
    id: int, mac: string, hostname: string, vendor: string, given_name: string,
    ip: string, user_agent: seq<string>, is_active: bool,
    has_custom_blocklist: bool, group: Group, first_seen: string,
    last_seen: string, is_mac_universal: bool, os_name: string,
    os_accuracy: int, os_type: string, os_vendor: string, os_family: string,
    os_gen: string, os_cpe: seq<string>, os_last_updated: string,
    blocklist: Blocklist, ai_classification: AIClassification)

  /** A partial patch: every field optional, absent by default. */
  datatype DeviceUpdate = DeviceUpdate(
    given_name: Option<string>, group_id: Option<int>,
    ads_trackers: Option<bool>, gambling: Option<bool>,
    social_media: Option<bool>, porn: Option<bool>, gaming: Option<bool>,
    streaming: Option<bool>, facebook: Option<bool>, instagram: Option<bool>,
    tiktok: Option<bool>, netflix: Option<bool>, youtube: Option<bool>,
    ai: Option<bool>, safesearch: Option<bool>)
  {
    /** `getattr(update_data, name)` for the blocklist field of `f`. */
    function Patch(f: Flag): Option<bool> {
      match f
      case AdsTrackers => ads_trackers
      case Gambling => gambling
      case SocialMedia => social_media
      case Porn => porn
      case Gaming => gaming
      case Streaming => streaming
      case Facebook => facebook
      case Instagram => instagram
      case Tiktok => tiktok
      case Netflix => netflix
      case Youtube => youtube
      case Ai => ai
      case Safesearch => safesearch
    }
  }

  /** The patch with every field absent (the schema's defaults). */
  const EmptyUpdate: DeviceUpdate :=
    DeviceUpdate(None, None, None, None, None, None, None, None, None,
                 None, None, None, None, None, None)

  /** An action request: the schema accepts any `action` string; the
      route decides which ones are valid. */
  datatype DeviceAction = DeviceAction(action: string, category: Option<string>)

  /** Server-side aggregate counts. */
  datatype Summary = Summary(
    total: int, active: int, by_group: map<string, int>,
    by_category: map<string, int>)
}
