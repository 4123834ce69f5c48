/** The unofficial-extras sub-protocol: the entry point
    `arcdps_unofficial_extras_subscriber_init` and the version cascade
    `__fill_v1` / `__fill_v2` / `__fill_v3` that populates the subscriber record the
    extras host hands over. */
module Extras {
  import opened Common
  import opened Slots

  /** The extras host's description of itself; the two strings are absent when the
      host passes a null pointer. */
  datatype AddonInfo = AddonInfo(
    apiVersion: nat,
    maxInfoVersion: nat,
    selfAccountName: Option<string>,
    stringVersion: Option<string>)

  /** The guard at the top of the generated population code. */
  predicate Accepts(addon: AddonInfo)
  {
    addon.apiVersion == 2 && addon.maxInfoVersion >= 1
  }

  /** What the plugin registers: its name string and the three extras callbacks. */
  datatype Registration = Registration(
    name: string,
    squadUpdate: Provision,
    chatMessage: Provision,
    chatMessage2: Provision)

  /** The subscriber record: the header's version tag and the fields of InfoV1
      (name, squad update, language changed, key bind changed), InfoV2 (chat message)
      and InfoV3 (chat message 2). A vN record begins with the v(N-1) fields, so one
      record holds them all. */
  datatype SubscriberView = SubscriberView(
    infoVersion: nat,
    subscriberName: string,
    squadUpdate: Provision,
    languageChanged: Provision,
    keyBindChanged: Provision,
    chatMessage: Provision,
    chatMessage2: Provision)

  /** The record after population at `tier`: every field of that tier and below is
      written, the tag is the tier, and the fields of higher tiers are left alone. */
  function Populated(s: SubscriberView, tier: nat, reg: Registration): SubscriberView
    requires 1 <= tier <= 3
  {
    SubscriberView(
      tier,
      reg.name,
      reg.squadUpdate,
      Absent,
      Absent,
      if tier >= 2 then reg.chatMessage else s.chatMessage,
      if tier >= 3 then reg.chatMessage2 else s.chatMessage2)
  }

  /** The tier the `match __addon.max_info_version` arms select. */
  function Tier(maxInfoVersion: nat): (t: nat)
    requires maxInfoVersion >= 1
    ensures 1 <= t <= 3
    ensures t == if maxInfoVersion < 3 then maxInfoVersion else 3
  {
    match maxInfoVersion
    case 1 => 1
    case 2 => 2
    case _ => 3
  }

  /** The record after the generated population code has run. */
  function InitSpec(addon: AddonInfo, s: SubscriberView, reg: Registration): SubscriberView
  {
    if !Accepts(addon) then s else Populated(s, Tier(addon.maxInfoVersion), reg)
  }

  /** The record as the extras host allocated it; the generated code overwrites its
      fields in place. */
  class Subscriber {
    var infoVersion: nat
    var subscriberName: string
    var squadUpdate: Provision
    var languageChanged: Provision
    var keyBindChanged: Provision
    var chatMessage: Provision
    var chatMessage2: Provision

    function View(): SubscriberView
      reads this
    {
      SubscriberView(infoVersion, subscriberName, squadUpdate, languageChanged,
                     keyBindChanged, chatMessage, chatMessage2)
    }

    constructor (v: SubscriberView)
      ensures View() == v
    {
      infoVersion, subscriberName, squadUpdate := v.infoVersion, v.subscriberName, v.squadUpdate;
      languageChanged, keyBindChanged := v.languageChanged, v.keyBindChanged;
      chatMessage, chatMessage2 := v.chatMessage, v.chatMessage2;
    }

    /** `__fill_v1` */
    method FillV1(reg: Registration)
      modifies this
      ensures View() == Populated(old(View()), 1, reg)
    {
      infoVersion := 1;
      subscriberName := reg.name;
      squadUpdate := reg.squadUpdate;
      languageChanged := Absent;
      keyBindChanged := Absent;
    }

    /** `__fill_v2`: the v1 population on the v1 prefix, then the v2 fields. */
    method FillV2(reg: Registration)
      modifies this
      ensures View() == Populated(old(View()), 2, reg)
    {
      FillV1(reg);
      infoVersion := 2;
      chatMessage := reg.chatMessage;
    }

    /** `__fill_v3`: the v2 population on the v2 prefix, then the v3 fields. */
    method FillV3(reg: Registration)
      modifies this
      ensures View() == Populated(old(View()), 3, reg)
    {
      FillV2(reg);
      infoVersion := 3;
      chatMessage2 := reg.chatMessage2;
    }

    /** The generated population code: the version guard, then the fill routine the
        host's maximum info version selects. `accepted` says whether the guard let
        it through (when it does not, the entry point returns at once). */
    method Init(addon: AddonInfo, reg: Registration) returns (accepted: bool)
      modifies this
      ensures accepted == Accepts(addon)
      ensures View() == InitSpec(addon, old(View()), reg)
    {
      if addon.apiVersion != 2 {
        return false;
      }
      if addon.maxInfoVersion < 1 {
        return false;
      }
      match addon.maxInfoVersion {
        case 1 => FillV1(reg);
        case 2 => FillV2(reg);
        case _ => FillV3(reg);
      }
      return true;
    }
  }

  /** With the wrong api version, or a host that supports no info version, the record
      is left exactly as the host passed it. */
  lemma RejectedInitWritesNothing(addon: AddonInfo, s: SubscriberView, reg: Registration)
    requires addon.apiVersion != 2 || addon.maxInfoVersion < 1
    ensures InitSpec(addon, s, reg) == s
  {
  }

  /** An accepted init stamps the tag min(max_info_version, 3), always writes the name,
      the squad callback and empty language and key bind callbacks, writes the chat
      callback exactly when the host supports v2 and the second chat callback exactly
      when it supports v3. */
  lemma AcceptedInitTiers(addon: AddonInfo, s: SubscriberView, reg: Registration)
    requires Accepts(addon)
    ensures var r := InitSpec(addon, s, reg);
      && r.infoVersion == (if addon.maxInfoVersion < 3 then addon.maxInfoVersion else 3)
      && r.subscriberName == reg.name && r.squadUpdate == reg.squadUpdate
      && r.languageChanged == Absent && r.keyBindChanged == Absent
      && r.chatMessage == (if addon.maxInfoVersion >= 2 then reg.chatMessage else s.chatMessage)
      && r.chatMessage2 == (if addon.maxInfoVersion >= 3 then reg.chatMessage2 else s.chatMessage2)
  {
  }

  /** The fields of the record, and the values they can hold. */
  datatype SubField =
    InfoVersion | SubscriberName | SquadUpdate | LanguageChanged | KeyBindChanged | ChatMessage | ChatMessage2

  datatype FieldValue = Number(n: nat) | Text(s: string) | Pointer(p: Provision)

  function Read(v: SubscriberView, f: SubField): FieldValue
  {
    match f
    case InfoVersion => Number(v.infoVersion)
    case SubscriberName => Text(v.subscriberName)
    case SquadUpdate => Pointer(v.squadUpdate)
    case LanguageChanged => Pointer(v.languageChanged)
    case KeyBindChanged => Pointer(v.keyBindChanged)
    case ChatMessage => Pointer(v.chatMessage)
    case ChatMessage2 => Pointer(v.chatMessage2)
  }

  /** The fields the fill routine of a tier writes. */
  function Writes(tier: nat): set<SubField>
  {
    {InfoVersion, SubscriberName, SquadUpdate, LanguageChanged, KeyBindChanged}
    + (if tier >= 2 then {ChatMessage} else {})
    + (if tier >= 3 then {ChatMessage2} else {})
  }

  /** Population at a tier touches only the fields that tier writes. */
  lemma PopulatedFrame(s: SubscriberView, tier: nat, reg: Registration, f: SubField)
    requires 1 <= tier <= 3 && f !in Writes(tier)
    ensures Read(Populated(s, tier, reg), f) == Read(s, f)
  {
  }

  /** The v1 writes are among the v2 writes, which are among the v3 writes, and each
      higher tier writes the same value into every field a lower tier writes, except
      the version tag; populating at a lower tier first changes nothing. */
  lemma CascadeNests(s: SubscriberView, j: nat, k: nat, reg: Registration)
    requires 1 <= j <= k <= 3
    ensures Writes(j) <= Writes(k)
    ensures forall f :: f in Writes(j) && f != InfoVersion ==>
              Read(Populated(s, j, reg), f) == Read(Populated(s, k, reg), f)
    ensures Populated(Populated(s, j, reg), k, reg) == Populated(s, k, reg)
  {
  }

  /** `trim_start_matches(':')`: every leading colon is removed. */
  function TrimLeadingColons(s: string): (r: string)
    ensures |r| <= |s| && r == s[|s| - |r|..]
    ensures r == [] || r[0] != ':'
    ensures forall i :: 0 <= i < |s| - |r| ==> s[i] == ':'
    decreases |s|
  {
    if |s| > 0 && s[0] == ':' then TrimLeadingColons(s[1..]) else s
  }

  /** The entry point the macro emits, if any. */
  datatype ExtrasEntry =
    | NoEntry                                         // no entry point is exported
    | ForwardRaw(raw: Expr)                           // the raw init owns the record
    | Populate(reg: Registration, safe: Option<Expr>) // generated population, then the safe init

  /** `build_extras_init`: a raw init is forwarded; a safe init gets the population
      code before it; without either, population alone is emitted when a squad update
      or chat message callback needs registering. A second chat callback alone does
      not cause an entry point. */
  function BuildExtrasInit(raw: Option<Expr>, safe: Option<Expr>, squad: Provision,
                           chat: Provision, chat2: Provision, name: string): (r: ExtrasEntry)
    ensures raw.Some? <==> r.ForwardRaw?
    ensures r.ForwardRaw? ==> r.raw == raw.value
    ensures r.NoEntry? <==> raw.None? && safe.None? && squad.Absent? && chat.Absent?
    ensures r.Populate? ==> r.reg == Registration(name, squad, chat, chat2) && r.safe == safe
  {
    var needsInit := !squad.Absent? || !chat.Absent?;
    match (raw, safe)
    case (Some(e), _) => ForwardRaw(e)
    case (None, Some(e)) => Populate(Registration(name, squad, chat, chat2), Some(e))
    case (None, None) => if needsInit then Populate(Registration(name, squad, chat, chat2), None) else NoEntry
  }

  /** The arguments the safe init receives. */
  datatype InitCall = InitCall(callback: Expr, user: Option<string>, version: Option<string>)

  /** What a call of the entry point did besides writing the record. */
  datatype EntryEffect =
    | Forwarded(raw: Expr, addon: AddonInfo)
    | Ran(call: Option<InitCall>)

  function AccountUser(name: Option<string>): Option<string>
  {
    match name
    case Some(n) => Some(TrimLeadingColons(n))
    case None => None
  }

  /** The host calls the exported entry point with its info and the record. A raw
      init receives both untouched (what it writes is its own affair and outside the
      model; the generated code itself writes nothing). Otherwise the population runs,
      and a safe init is called afterwards with the account name stripped of its
      leading colons and the version string, unless the guard returned early. */
  method SubscriberInit(entry: ExtrasEntry, addon: AddonInfo, sub: Subscriber) returns (effect: EntryEffect)
    requires !entry.NoEntry?
    modifies sub
    ensures entry.ForwardRaw? ==> effect == Forwarded(entry.raw, addon) && unchanged(sub)
    ensures entry.Populate? ==> sub.View() == InitSpec(addon, old(sub.View()), entry.reg)
    ensures entry.Populate? ==>
              effect == Ran(if entry.safe.Some? && Accepts(addon)
                            then Some(InitCall(entry.safe.value, AccountUser(addon.selfAccountName), addon.stringVersion))
                            else None)
  {
    match entry {
      case ForwardRaw(raw) =>
        effect := Forwarded(raw, addon);
      case Populate(reg, safe) =>
        var accepted := sub.Init(addon, reg);
        if !accepted || safe.None? {
          return Ran(None);
        }
        var user := AccountUser(addon.selfAccountName);
        effect := Ran(Some(InitCall(safe.value, user, addon.stringVersion)));
    }
  }
}
