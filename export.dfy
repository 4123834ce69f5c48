/** The expansion of `arcdps_export!`: the success export table `__EXPORT`, the error
    table `__EXPORT_ERROR`, the adapters, the extras entry point, and the lifecycle
    functions the host discovers (`get_init_addr`, `__load`, `get_release_addr`,
    `__unload`) over the module's statics. */
module Export {
  import opened Common
  import opened Parse
  import opened Slots
  import opened Extras
  import opened Adapters

  /** The table's first field: normally the table's byte size. On the error path it
      holds an address: that of the `String` static itself (`&raw const __ERROR_STRING`,
      whose bytes are the string's pointer, capacity and length), or that of the
      string's characters (`__ERROR_STRING.as_ptr()`). */
  datatype SizeField = SizeOfExport | Bytes(n: nat) | StringObjectAddress | StringBytesAddress

  datatype SigField = SigOf(e: Expr) | SigZero

  /** The imgui version the host is told the plugin was built against. */
  const IMGUI_VERSION: nat := 18000

  /** `ArcDpsExport`, field by field. */
  datatype ExportTable = ExportTable(
    size: SizeField,
    sig: SigField,
    imguiVersion: nat,
    outBuild: string,
    outName: string,
    combat: Provision,
    combatLocal: Provision,
    imgui: Provision,
    optionsEnd: Provision,
    optionsWindows: Provision,
    wndFilter: Provision,
    wndNofilter: Provision)

  /** The slots that have a field in the export table, in table order. */
  const TableSlots: seq<Slot> := [Combat, CombatLocal, Imgui, OptionsEnd, OptionsWindows, WndFilter, WndNofilter]

  /** The slots whose adapters are emitted, in emission order. */
  const AdapterSlots: seq<Slot> := TableSlots + [ExtrasSquadUpdate, ExtrasChatMessage, ExtrasChatMessage2]

  function Callback(t: ExportTable, s: Slot): Provision
    requires s in TableSlots
  {
    match s
    case Combat => t.combat
    case CombatLocal => t.combatLocal
    case Imgui => t.imgui
    case OptionsEnd => t.optionsEnd
    case OptionsWindows => t.optionsWindows
    case WndFilter => t.wndFilter
    case WndNofilter => t.wndNofilter
  }

  /** The version string: the package version, nul-terminated. */
  function BuildString(pkgVersion: string): string
  {
    pkgVersion + "\0"
  }

  /** The export name: the declared name, or the package name, nul-terminated. */
  function OutName(cfg: Config, pkgName: string): string
  {
    (if cfg.name.Some? then cfg.name.value else pkgName) + "\0"
  }

  /** The adapters emitted for the slots `ss`, in order. */
  function EmittedAdapters(cfg: Config, ss: seq<Slot>): (r: seq<Adapter>)
    requires forall s :: s in ss ==> Resolvable(s)
    decreases |ss|
  {
    if ss == [] then []
    else (if ResolveSlot(cfg, ss[0]).emitted.Some? then [ResolveSlot(cfg, ss[0]).emitted.value] else [])
         + EmittedAdapters(cfg, ss[1..])
  }

  /** The adapter emitted for slot `s`, if the declaration calls for one: only a safe
      expression, no raw one. */
  predicate EmitsAdapter(cfg: Config, s: Slot)
  {
    Raw(s) !in cfg.slots && Safe(s) in cfg.slots
  }

  /** An adapter is emitted for the slots `ss` exactly when its slot is one of them,
      the declaration binds only the safe variant of that slot, and the adapter is the
      one named after the slot that wraps that safe expression. */
  lemma {:induction false} EmittedMembership(cfg: Config, ss: seq<Slot>, a: Adapter)
    requires forall s :: s in ss ==> Resolvable(s)
    ensures a in EmittedAdapters(cfg, ss) <==>
              && a.slot in ss && EmitsAdapter(cfg, a.slot)
              && a == Adapter(AdapterName(a.slot), a.slot, cfg.slots[Safe(a.slot)])
    decreases |ss|
  {
    if ss != [] {
      EmittedMembership(cfg, ss[1..], a);
      assert a.slot in ss <==> a.slot == ss[0] || a.slot in ss[1..];
    }
  }

  /** When `ss` repeats no slot, no two adapters emitted for it share a name. */
  lemma {:induction false} EmittedNamesDistinct(cfg: Config, ss: seq<Slot>)
    requires forall s :: s in ss ==> Resolvable(s)
    requires forall i, j :: 0 <= i < j < |ss| ==> ss[i] != ss[j]
    ensures forall i, j :: 0 <= i < j < |EmittedAdapters(cfg, ss)| ==>
              EmittedAdapters(cfg, ss)[i].fnName != EmittedAdapters(cfg, ss)[j].fnName
    decreases |ss|
  {
    if ss != [] {
      var rest := ss[1..];
      assert forall i, j :: 0 <= i < j < |rest| ==> rest[i] != rest[j] by {
        forall i, j | 0 <= i < j < |rest| ensures rest[i] != rest[j] {
          assert rest[i] == ss[i + 1] && rest[j] == ss[j + 1];
        }
      }
      EmittedNamesDistinct(cfg, rest);
      var tail := EmittedAdapters(cfg, rest);
      var all := EmittedAdapters(cfg, ss);
      if ResolveSlot(cfg, ss[0]).emitted.Some? {
        var a := ResolveSlot(cfg, ss[0]).emitted.value;
        assert all == [a] + tail;
        forall j | 0 <= j < |tail| ensures a.fnName != tail[j].fnName {
          var b := tail[j];
          EmittedMembership(cfg, rest, b);
          assert b.slot != ss[0];
          AdapterNamesDistinct(ss[0], b.slot);
        }
        forall i, j | 0 <= i < j < |all| ensures all[i].fnName != all[j].fnName {
          if i == 0 {
            assert all[j] == tail[j - 1];
          } else {
            assert all[i] == tail[i - 1] && all[j] == tail[j - 1];
          }
        }
      } else {
        assert all == tail;
      }
    }
  }

  /** Everything the macro expansion holds that the model follows. */
  datatype Generated = Generated(
    table: ExportTable,
    errorTable: ExportTable,
    adapters: seq<Adapter>,
    extras: ExtrasEntry,
    init: Option<Expr>,
    release: Option<Expr>)

  /** `arcdps_export`: the package version and name are the build environment's. */
  function Generate(cfg: Config, pkgVersion: string, pkgName: string): Generated
  {
    var build := BuildString(pkgVersion);
    var outName := OutName(cfg, pkgName);
    Generated(
      ExportTable(SizeOfExport, SigOf(cfg.sig), IMGUI_VERSION, build, outName,
                  ResolveSlot(cfg, Combat).field, ResolveSlot(cfg, CombatLocal).field,
                  ResolveSlot(cfg, Imgui).field, ResolveSlot(cfg, OptionsEnd).field,
                  ResolveSlot(cfg, OptionsWindows).field, ResolveSlot(cfg, WndFilter).field,
                  ResolveSlot(cfg, WndNofilter).field),
      ExportTable(Bytes(0), SigZero, IMGUI_VERSION, build, outName,
                  Absent, Absent, Absent, Absent, Absent, Absent, Absent),
      EmittedAdapters(cfg, AdapterSlots),
      BuildExtrasInit(Get(cfg.slots, Raw(ExtrasInit)), Get(cfg.slots, Safe(ExtrasInit)),
                      ResolveSlot(cfg, ExtrasSquadUpdate).field,
                      ResolveSlot(cfg, ExtrasChatMessage).field,
                      ResolveSlot(cfg, ExtrasChatMessage2).field,
                      outName),
      cfg.init,
      cfg.release)
  }

  /** Each table slot of the success table: a raw expression is the field's value and
      no adapter is emitted for the slot; a safe expression alone makes the field refer
      to an emitted adapter wrapping it; neither leaves the field `None` with no adapter. */
  lemma TableSlotsResolved(cfg: Config, pkgVersion: string, pkgName: string, s: Slot)
    requires s in TableSlots
    ensures var g := Generate(cfg, pkgVersion, pkgName);
      && (Raw(s) in cfg.slots ==>
            Callback(g.table, s) == Direct(cfg.slots[Raw(s)])
            && forall a :: a in g.adapters ==> a.slot != s)
      && (Raw(s) !in cfg.slots && Safe(s) in cfg.slots ==>
            Callback(g.table, s) == AdapterRef(AdapterName(s))
            && Adapter(AdapterName(s), s, cfg.slots[Safe(s)]) in g.adapters)
      && (Raw(s) !in cfg.slots && Safe(s) !in cfg.slots ==>
            Callback(g.table, s) == Absent
            && forall a :: a in g.adapters ==> a.slot != s)
  {
    var g := Generate(cfg, pkgVersion, pkgName);
    assert s in AdapterSlots;
    EmittedMembership(cfg, AdapterSlots, Adapter(AdapterName(s), s, if Safe(s) in cfg.slots then cfg.slots[Safe(s)] else cfg.sig));
    forall a | a in g.adapters && !EmitsAdapter(cfg, s) ensures a.slot != s {
      EmittedMembership(cfg, AdapterSlots, a);
    }
  }

  /** Every adapter a table field refers to is emitted, for that field's slot. */
  lemma TableReferencesEmitted(cfg: Config, pkgVersion: string, pkgName: string)
    ensures var g := Generate(cfg, pkgVersion, pkgName);
      forall s :: s in TableSlots && Callback(g.table, s).AdapterRef? ==>
        exists a :: a in g.adapters && a.fnName == Callback(g.table, s).fnName && a.slot == s
  {
    var g := Generate(cfg, pkgVersion, pkgName);
    forall s | s in TableSlots && Callback(g.table, s).AdapterRef?
      ensures exists a :: a in g.adapters && a.fnName == Callback(g.table, s).fnName && a.slot == s
    {
      TableSlotsResolved(cfg, pkgVersion, pkgName, s);
    }
  }

  /** Every adapter the extras registration refers to is emitted. */
  lemma ExtrasReferencesEmitted(cfg: Config, pkgVersion: string, pkgName: string)
    ensures var g := Generate(cfg, pkgVersion, pkgName);
      g.extras.Populate? ==>
        forall p :: (p in [g.extras.reg.squadUpdate, g.extras.reg.chatMessage, g.extras.reg.chatMessage2]
                     && p.AdapterRef?) ==> exists a :: a in g.adapters && a.fnName == p.fnName
  {
    var g := Generate(cfg, pkgVersion, pkgName);
    var extrasSlots := [ExtrasSquadUpdate, ExtrasChatMessage, ExtrasChatMessage2];
    forall s | s in extrasSlots && EmitsAdapter(cfg, s)
      ensures Adapter(AdapterName(s), s, cfg.slots[Safe(s)]) in g.adapters
    {
      assert s in AdapterSlots;
      EmittedMembership(cfg, AdapterSlots, Adapter(AdapterName(s), s, cfg.slots[Safe(s)]));
    }
  }

  /** No two emitted adapters share a name. */
  lemma AdapterNamesUnique(cfg: Config, pkgVersion: string, pkgName: string)
    ensures var g := Generate(cfg, pkgVersion, pkgName);
      forall i, j :: 0 <= i < j < |g.adapters| ==> g.adapters[i].fnName != g.adapters[j].fnName
  {
    assert forall i, j :: 0 <= i < j < |AdapterSlots| ==> AdapterSlots[i] != AdapterSlots[j];
    EmittedNamesDistinct(cfg, AdapterSlots);
  }

  /** The fixed metadata: both tables carry imgui version 18000 and the same build and
      name strings (package version plus nul; declared name or package name plus nul);
      the error table starts with size 0, signature 0 and every callback `None`. */
  lemma TablesMetadata(cfg: Config, pkgVersion: string, pkgName: string)
    ensures var g := Generate(cfg, pkgVersion, pkgName);
      && g.table.size == SizeOfExport && g.table.sig == SigOf(cfg.sig)
      && g.table.imguiVersion == g.errorTable.imguiVersion == 18000
      && g.table.outBuild == g.errorTable.outBuild == pkgVersion + "\0"
      && g.table.outName == g.errorTable.outName
      && (cfg.name.Some? ==> g.table.outName == cfg.name.value + "\0")
      && (cfg.name.None? ==> g.table.outName == pkgName + "\0")
      && g.errorTable.size == Bytes(0) && g.errorTable.sig == SigZero
      && forall s :: s in TableSlots ==> Callback(g.errorTable, s) == Absent
  {
  }

  /** The extras entry point: a raw init is forwarded; a safe init follows the
      population, which registers the export name and the three resolved extras
      callbacks; with no init, population alone is emitted when a squad update or
      chat message callback is bound, and otherwise no entry point. */
  lemma ExtrasEntryFromConfig(cfg: Config, pkgVersion: string, pkgName: string)
    ensures var g := Generate(cfg, pkgVersion, pkgName);
      var reg := Registration(OutName(cfg, pkgName), ResolveSlot(cfg, ExtrasSquadUpdate).field,
                              ResolveSlot(cfg, ExtrasChatMessage).field, ResolveSlot(cfg, ExtrasChatMessage2).field);
      var bound := (Raw(ExtrasSquadUpdate) in cfg.slots || Safe(ExtrasSquadUpdate) in cfg.slots
                    || Raw(ExtrasChatMessage) in cfg.slots || Safe(ExtrasChatMessage) in cfg.slots);
      && (Raw(ExtrasInit) in cfg.slots ==> g.extras == ForwardRaw(cfg.slots[Raw(ExtrasInit)]))
      && (Raw(ExtrasInit) !in cfg.slots && Safe(ExtrasInit) in cfg.slots ==>
            g.extras == Populate(reg, Some(cfg.slots[Safe(ExtrasInit)])))
      && (Raw(ExtrasInit) !in cfg.slots && Safe(ExtrasInit) !in cfg.slots ==>
            g.extras == if bound then Populate(reg, None) else NoEntry)
  {
  }

  /** A second chat message callback bound on its own gets its adapter emitted but no
      entry point, so the extras host is never told about it. */
  lemma ChatMessage2AloneNotRegistered(cfg: Config, pkgVersion: string, pkgName: string)
    requires Safe(ExtrasChatMessage2) in cfg.slots && Raw(ExtrasChatMessage2) !in cfg.slots
    requires forall k :: k in cfg.slots ==> k.slot == ExtrasChatMessage2
    ensures var g := Generate(cfg, pkgVersion, pkgName);
      && g.extras.NoEntry?
      && Adapter(AdapterName(ExtrasChatMessage2), ExtrasChatMessage2, cfg.slots[Safe(ExtrasChatMessage2)]) in g.adapters
  {
    assert ExtrasChatMessage2 in AdapterSlots;
    EmittedMembership(cfg, AdapterSlots,
                      Adapter(AdapterName(ExtrasChatMessage2), ExtrasChatMessage2, cfg.slots[Safe(ExtrasChatMessage2)]));
  }

  /** The functions whose addresses the host receives. */
  datatype EntryFn = LoadFn | UnloadFn

  /** Which static the host receives the address of from `__load`. */
  datatype TableRef = SuccessTable | ErrorTable

  /** The C string that starts at the first character of `s`: everything up to the
      first nul, or all of `s` when it has none. */
  function UpToNul(s: string): (r: string)
    ensures r <= s && '\0' !in r
    ensures |r| < |s| ==> s[|r|] == '\0'
    decreases |s|
  {
    if s == [] || s[0] == '\0' then [] else [s[0]] + UpToNul(s[1..])
  }

  /** What the host learns from a table it received. The host takes a table whose
      signature is 0 for a failed load and reads its size field as a pointer to a C
      string. The model keeps only the characters of `__ERROR_STRING`: read through
      `StringBytesAddress` they give the error text, through `StringObjectAddress` the
      host reads the `String`'s header bytes, and a byte count (or 0) in the size field
      is read as an address that points at no error string at all. */
  datatype ErrorReport = NoReport | ReportText(text: string) | StringHeaderBytes | SizeReadAsAddress

  /** Whether the host takes a table for a failed load. A declared signature is an
      expression the generator never evaluates; `isZero` says which of them are 0. */
  predicate ReadAsFailed(sig: SigField, isZero: Expr -> bool)
  {
    match sig
    case SigZero => true
    case SigOf(e) => isZero(e)
  }

  function HostReport(t: ExportTable, errorString: string, isZero: Expr -> bool): (r: ErrorReport)
    ensures r.NoReport? <==> !ReadAsFailed(t.sig, isZero)
    ensures r.ReportText? <==> ReadAsFailed(t.sig, isZero) && t.size == StringBytesAddress
    ensures r.StringHeaderBytes? <==> ReadAsFailed(t.sig, isZero) && t.size == StringObjectAddress
    ensures r.ReportText? ==> r.text == UpToNul(errorString)
  {
    if !ReadAsFailed(t.sig, isZero) then NoReport
    else match t.size
      case StringBytesAddress => ReportText(UpToNul(errorString))
      case StringObjectAddress => StringHeaderBytes
      case _ => SizeReadAsAddress
  }

  /** As written: storing the `String` static's own address never hands the host the
      error text, whatever the text is. */
  lemma AsWrittenErrorUnreadable(t: ExportTable, e: string, isZero: Expr -> bool)
    requires t.sig == SigZero
    ensures HostReport(t.(size := StringObjectAddress), e + "\0", isZero) != ReportText(e)
    ensures HostReport(t.(size := StringObjectAddress), e + "\0", isZero) == StringHeaderBytes
  {
  }

  /** A text without nuls, terminated by one, reads back as itself. */
  lemma {:induction false} UpToNulTerminated(e: string)
    requires '\0' !in e
    ensures UpToNul(e + "\0") == e
    decreases |e|
  {
    if e != [] {
      assert (e + "\0")[1..] == e[1..] + "\0";
      assert e[0] in e;
      UpToNulTerminated(e[1..]);
      assert [e[0]] + e[1..] == e;
    }
  }

  /** Corrected: storing the address of the characters hands the host exactly the
      error text, provided the text has no nul of its own. */
  lemma CorrectedErrorReadable(t: ExportTable, e: string, isZero: Expr -> bool)
    requires t.sig == SigZero && '\0' !in e
    ensures HostReport(t.(size := StringBytesAddress), e + "\0", isZero) == ReportText(e)
  {
    UpToNulTerminated(e);
  }

  /** The generator passes the declared signature through unchecked. The host reads
      the success table as a successful load exactly when that signature is nonzero;
      a declared signature of 0 makes it read the table's byte size as the address of
      an error string. */
  lemma DeclaredZeroSignature(cfg: Config, pkgVersion: string, pkgName: string,
                              errorString: string, isZero: Expr -> bool)
    ensures var t := Generate(cfg, pkgVersion, pkgName).table;
      && (HostReport(t, errorString, isZero) == NoReport <==> !isZero(cfg.sig))
      && (isZero(cfg.sig) ==> HostReport(t, errorString, isZero) == SizeReadAsAddress)
  {
    TablesMetadata(cfg, pkgVersion, pkgName);
  }

  /** The statics as the expansion declares them: both tables share their version and
      strings, the success table has the table's size and the declared signature, and
      the error table has size 0, signature 0 and no callbacks. */
  predicate InitialTables(g: Generated)
  {
    && g.table.imguiVersion == g.errorTable.imguiVersion == IMGUI_VERSION
    && g.table.outBuild == g.errorTable.outBuild && g.table.outName == g.errorTable.outName
    && g.table.size == SizeOfExport && g.table.sig.SigOf?
    && g.errorTable.size == Bytes(0) && g.errorTable.sig == SigZero
    && forall s :: s in TableSlots ==> Callback(g.errorTable, s) == Absent
  }

  /** The outcome of the user's init hook (`Ok(())` when there is none), with the
      error's text. */
  function InitOutcome(init: Option<Expr>, swapchain: Option<nat>,
                       run: (Expr, Option<nat>) -> Result<(), string>): Result<(), string>
  {
    if init.Some? then run(init.value, swapchain) else Success(())
  }

  /** The module's statics and the lifecycle entry points over them. */
  class Plugin {
    const table: ExportTable       // __EXPORT, never written
    var errorTable: ExportTable   // __EXPORT_ERROR
    var errorString: string        // __ERROR_STRING
    var swapchain: Option<nat>     // __SWAPCHAIN
    var ui: Option<Ui>             // __UI
    const init: Option<Expr>
    const release: Option<Expr>

    /** The two tables share their strings and version; the success table carries the
        signature; the error table has no callbacks, signature 0 and a size of 0 or an
        address of the error string. */
    ghost predicate Valid()
      reads this
    {
      && table.imguiVersion == errorTable.imguiVersion == IMGUI_VERSION
      && table.outBuild == errorTable.outBuild
      && table.outName == errorTable.outName
      && table.size == SizeOfExport && table.sig.SigOf?
      && errorTable.sig == SigZero
      && errorTable.size in {Bytes(0), StringObjectAddress, StringBytesAddress}
      && forall s :: s in TableSlots ==> Callback(errorTable, s) == Absent
    }

    /** The statics as the expansion initialises them. */
    constructor (g: Generated)
      requires InitialTables(g)
      ensures Valid()
      ensures table == g.table && errorTable == g.errorTable
      ensures errorString == "" && swapchain == None && ui == None
      ensures init == g.init && release == g.release
    {
      table, errorTable := g.table, g.errorTable;
      errorString, swapchain, ui := "", None, None;
      init, release := g.init, g.release;
    }

    /** The table a `TableRef` points at. */
    function Deref(t: TableRef): ExportTable
      reads this
    {
      match t
      case SuccessTable => table
      case ErrorTable => errorTable
    }

    /** `get_init_addr`: keeps the host's UI context and swapchain (`None` for a null
        pointer) and hands back `__load`. */
    method GetInitAddr(imguiCtx: nat, d3dPtr: nat) returns (f: EntryFn)
      requires Valid()
      modifies this`swapchain, this`ui
      ensures Valid()
      ensures ui == Some(Ui(imguiCtx))
      ensures swapchain == if d3dPtr == 0 then None else Some(d3dPtr)
      ensures f == LoadFn
    {
      ui := Some(Ui(imguiCtx));
      swapchain := if d3dPtr == 0 then None else Some(d3dPtr);
      f := LoadFn;
    }

    /** `__load` as written: runs the init hook on the swapchain. On success (or
        without a hook) the host gets the success table. On failure the error's text
        plus a nul is kept, the error table's size field is overwritten with the address
        of the `String` static itself, and the host gets the error table, from which
        it cannot read the text. */
    method LoadAsWritten(run: (Expr, Option<nat>) -> Result<(), string>, ghost isZero: Expr -> bool) returns (t: TableRef)
      requires Valid()
      modifies this`errorTable, this`errorString
      ensures Valid()
      ensures var outcome := InitOutcome(init, swapchain, run);
        && (outcome.Success? ==>
              t == SuccessTable && errorTable == old(errorTable) && errorString == old(errorString)
              && HostReport(Deref(t), errorString, isZero) ==
                   (if isZero(table.sig.e) then SizeReadAsAddress else NoReport))
        && (outcome.Failure? ==>
              && t == ErrorTable
              && errorString == outcome.error + "\0"
              && errorTable == old(errorTable).(size := StringObjectAddress)
              && HostReport(Deref(t), errorString, isZero) == StringHeaderBytes)
    {
      t := SuccessTable;
      var res := InitOutcome(init, swapchain, run);
      if res.Failure? {
        errorString := res.error + "\0";
        errorTable := errorTable.(size := StringObjectAddress);
        t := ErrorTable;
      }
    }

    /** `__load` with the size field set to `__ERROR_STRING.as_ptr()`: as above, but
        on failure the host reads the error's text up to its first nul. In both, the
        success table reads as a failed load when the declared signature is 0. */
    method Load(run: (Expr, Option<nat>) -> Result<(), string>, ghost isZero: Expr -> bool) returns (t: TableRef)
      requires Valid()
      modifies this`errorTable, this`errorString
      ensures Valid()
      ensures var outcome := InitOutcome(init, swapchain, run);
        && (outcome.Success? ==>
              t == SuccessTable && errorTable == old(errorTable) && errorString == old(errorString)
              && HostReport(Deref(t), errorString, isZero) ==
                   (if isZero(table.sig.e) then SizeReadAsAddress else NoReport))
        && (outcome.Failure? ==>
              && t == ErrorTable
              && errorString == outcome.error + "\0"
              && errorTable == old(errorTable).(size := StringBytesAddress)
              && HostReport(Deref(t), errorString, isZero) == ReportText(UpToNul(outcome.error + "\0"))
              && ('\0' !in outcome.error ==> HostReport(Deref(t), errorString, isZero) == ReportText(outcome.error)))
    {
      t := SuccessTable;
      var res := InitOutcome(init, swapchain, run);
      if res.Failure? {
        errorString := res.error + "\0";
        errorTable := errorTable.(size := StringBytesAddress);
        t := ErrorTable;
        if '\0' !in res.error {
          CorrectedErrorReadable(errorTable, res.error, isZero);
        }
      }
    }

    /** `get_release_addr`: always `__unload`. */
    method GetReleaseAddr() returns (f: EntryFn)
      ensures f == UnloadFn
    {
      f := UnloadFn;
    }

    /** `__unload`: calls the release hook if there is one, and nothing else. */
    method Unload() returns (called: Option<Expr>)
      ensures called == release
    {
      called := release;
    }
  }

  /** A host session over the generated statics: attach, then load with an init hook
      that fails with "boom". The host receives the error table, which has no callbacks
      and from which it reads the text "boom", while the success table is untouched. */
  method FailingLoad(cfg: Config, pkgVersion: string, pkgName: string, hook: Expr, d3dPtr: nat,
                     ghost isZero: Expr -> bool) returns (t: TableRef, p: Plugin)
    requires cfg.init == Some(hook)
    ensures t == ErrorTable && p.Deref(t) != p.Deref(SuccessTable)
    ensures HostReport(p.Deref(t), p.errorString, isZero) == ReportText("boom")
    ensures forall s :: s in TableSlots ==> Callback(p.Deref(t), s) == Absent
    ensures p.table == Generate(cfg, pkgVersion, pkgName).table
  {
    TablesMetadata(cfg, pkgVersion, pkgName);
    p := new Plugin(Generate(cfg, pkgVersion, pkgName));
    var f := p.GetInitAddr(0, d3dPtr);
    t := p.Load((e, sc) => Failure("boom"), isZero);
  }

  /** The same session with `__load` as written: the host receives the error table but
      reads the `String`'s header bytes, not "boom". */
  method FailingLoadAsWritten(cfg: Config, pkgVersion: string, pkgName: string, hook: Expr, d3dPtr: nat,
                              ghost isZero: Expr -> bool) returns (t: TableRef, p: Plugin)
    requires cfg.init == Some(hook)
    ensures t == ErrorTable && p.errorString == "boom\0"
    ensures HostReport(p.Deref(t), p.errorString, isZero) == StringHeaderBytes
    ensures HostReport(p.Deref(t), p.errorString, isZero) != ReportText("boom")
    ensures p.table == Generate(cfg, pkgVersion, pkgName).table
  {
    TablesMetadata(cfg, pkgVersion, pkgName);
    p := new Plugin(Generate(cfg, pkgVersion, pkgName));
    var f := p.GetInitAddr(0, d3dPtr);
    t := p.LoadAsWritten((e, sc) => Failure("boom"), isZero);
  }
}
