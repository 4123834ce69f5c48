/** The decision every `build_*` function makes for one callback slot: pass the raw
    expression through, generate an adapter around the safe expression, or leave the
    slot empty. */
module Slots {
  import opened Common
  import opened Parse

  /** What a table or subscriber callback field holds. */
  datatype Provision =
    | Absent                      // `None`
    | Direct(raw: Expr)           // `Some(raw as _)`
    | AdapterRef(fnName: string)  // `Some(__arcdps_gen_export::<adapter> as _)`

  /** A generated adapter function: its name, the slot it serves and the safe
      callback it forwards to after converting the native arguments. */
  datatype Adapter = Adapter(fnName: string, slot: Slot, safe: Expr)

  /** The field value and the adapter code emitted for one slot. */
  datatype Resolution = Resolution(field: Provision, emitted: Option<Adapter>)

  /** The slots that `build_*` resolves; the extras init slot is built differently. */
  predicate Resolvable(s: Slot)
  {
    s != ExtrasInit
  }

  function AdapterName(s: Slot): string
    requires Resolvable(s)
  {
    match s
    case Combat => "__abstract_combat"
    case CombatLocal => "__abstract_combat_local"
    case Imgui => "__abstract_imgui"
    case OptionsEnd => "__abstract_options_end"
    case OptionsWindows => "__abstract_options_windows"
    case WndFilter => "__abstract_wnd_filter"
    case WndNofilter => "__abstract_wnd_nofilter"
    case ExtrasSquadUpdate => "__abstract_extras_squad_update"
    case ExtrasChatMessage => "__abstract_extras_chat_message"
    case ExtrasChatMessage2 => "__abstract_extras_chat_message2"
  }

  /** No two slots share an adapter name, so the emitted functions never clash. */
  lemma AdapterNamesDistinct(s: Slot, t: Slot)
    requires Resolvable(s) && Resolvable(t) && s != t
    ensures AdapterName(s) != AdapterName(t)
  {
  }

  /** The shared `match (raw, safe)` of every `build_*` function. The raw expression
      wins; a safe one alone yields an adapter named after the slot, which the field
      then refers to; neither leaves the field empty. */
  function Resolve(s: Slot, raw: Option<Expr>, safe: Option<Expr>): (r: Resolution)
    requires Resolvable(s)
    ensures r.field.Direct? <==> raw.Some?
    ensures raw.Some? ==> r.field.raw == raw.value
    ensures r.field.Absent? <==> raw.None? && safe.None?
    ensures r.emitted.Some? <==> r.field.AdapterRef?
    ensures r.emitted.Some? ==>
              && r.field.fnName == r.emitted.value.fnName == AdapterName(s)
              && r.emitted.value.slot == s
              && r.emitted.value.safe == safe.value
  {
    match (raw, safe)
    case (Some(e), _) => Resolution(Direct(e), None)
    case (None, Some(e)) => Resolution(AdapterRef(AdapterName(s)), Some(Adapter(AdapterName(s), s, e)))
    case (None, None) => Resolution(Absent, None)
  }

  /** `Resolve` applied to the slot's two fields of a parsed declaration. */
  function ResolveSlot(cfg: Config, s: Slot): Resolution
    requires Resolvable(s)
  {
    Resolve(s, Get(cfg.slots, Raw(s)), Get(cfg.slots, Safe(s)))
  }

  /** For a parsed declaration: a raw field becomes the table value with no adapter;
      a safe field alone becomes a reference to the generated adapter, never the safe
      expression itself; neither leaves the slot empty with no adapter. */
  lemma ResolvedFromParse(fs: seq<Field>, cfg: Config, s: Slot)
    requires ParseSpec(fs) == Success(cfg) && Resolvable(s)
    ensures var r := ResolveSlot(cfg, s);
      && (Last(fs, KeyName(Raw(s))).Some? ==>
            r.field == Direct(Last(fs, KeyName(Raw(s))).value) && r.emitted.None?
            && Last(fs, KeyName(Safe(s))).None?)
      && (Last(fs, KeyName(Safe(s))).Some? ==>
            r.field == AdapterRef(AdapterName(s))
            && r.emitted == Some(Adapter(AdapterName(s), s, Last(fs, KeyName(Safe(s))).value)))
      && (Last(fs, KeyName(Raw(s))).None? && Last(fs, KeyName(Safe(s))).None? ==>
            r == Resolution(Absent, None))
  {
    ParsedConfig(fs, cfg);
    assert Get(cfg.slots, Raw(s)) == Last(fs, KeyName(Raw(s)));
    assert Get(cfg.slots, Safe(s)) == Last(fs, KeyName(Safe(s)));
    if Raw(s) in cfg.slots {
      assert Partner(Raw(s)) !in cfg.slots;
    }
  }
}
