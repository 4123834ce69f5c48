/** What the generated adapters do when the host calls them: the combat adapter
    (shared by `combat` and `combat_local`), the extras squad update adapter, the
    keyboard filter adapter (shared by `wnd_filter` and `wnd_nofilter`) and the
    adapters that hand the captured UI handle to the safe callback (`imgui`,
    `options_end`, `options_windows`). Each is a pure function of its arguments and
    of the safe callback or converter, which are parameters. */
module Adapters {
  import opened Common

  type U32 = x: int | 0 <= x < 0x1_0000_0000
  type USize = x: int | 0 <= x < 0x1_0000_0000_0000_0000
  type ISize = x: int | -0x8000_0000_0000_0000 <= x < 0x8000_0000_0000_0000
  type U64 = x: int | 0 <= x < 0x1_0000_0000_0000_0000

  // The Win32 keystroke messages.
  const WM_KEYDOWN: U32 := 0x0100
  const WM_KEYUP: U32 := 0x0101
  const WM_SYSKEYDOWN: U32 := 0x0104
  const WM_SYSKEYUP: U32 := 0x0105

  predicate IsKeyMessage(msg: U32)
  {
    msg == WM_KEYDOWN || msg == WM_KEYUP || msg == WM_SYSKEYDOWN || msg == WM_SYSKEYUP
  }

  /** The arguments the keyboard adapter passes to the safe callback. */
  datatype KeyEvent = KeyEvent(key: USize, keyDown: bool, prevKeyDown: bool)

  /** The adapter's return value and the callback invocation it made, if any. */
  datatype WndOutcome = WndOutcome(ret: U32, call: Option<KeyEvent>)

  /** `msg & 1 == 0` on an unsigned message code. */
  function LowBitClear(msg: U32): bool
  {
    msg % 2 == 0
  }

  /** `(l >> 30) & 1 == 1` on a signed `isize`: the arithmetic shift is a division by
      2^30 rounded down, which Dafny's `/` by a positive divisor is. */
  function ShiftedBit30(l: ISize): bool
  {
    (l / 0x4000_0000) % 2 == 1
  }

  /** Bit 30 of a two's complement value is set exactly when its residue modulo 2^31
      is at least 2^30, for negative values as well. */
  lemma ShiftedBit30IsBit30(l: ISize)
    ensures ShiftedBit30(l) <==> l % 0x8000_0000 >= 0x4000_0000
  {
  }

  /** The body of `__abstract_wnd_filter` / `__abstract_wnd_nofilter`. */
  function WndAdapter(msg: U32, wParam: USize, lParam: ISize, safe: (USize, bool, bool) -> bool): (r: WndOutcome)
    ensures r.call.Some? <==> IsKeyMessage(msg)
    ensures r.call.Some? ==>
              && r.call.value.key == wParam
              && (r.call.value.keyDown <==> msg == WM_KEYDOWN || msg == WM_SYSKEYDOWN)
              && (r.call.value.prevKeyDown <==> lParam % 0x8000_0000 >= 0x4000_0000)
    ensures r.ret == 0 || r.ret == msg
    ensures r.ret != msg <==>
              r.call.Some? && !safe(r.call.value.key, r.call.value.keyDown, r.call.value.prevKeyDown)
  {
    if IsKeyMessage(msg) then
      var keyDown := LowBitClear(msg);
      var prevKeyDown := ShiftedBit30(lParam);
      ShiftedBit30IsBit30(lParam);
      WndOutcome(if safe(wParam, keyDown, prevKeyDown) then msg else 0, Some(KeyEvent(wParam, keyDown, prevKeyDown)))
    else
      WndOutcome(msg, None)
  }

  /** The arguments the combat adapter passes to the safe callback: the converted
      event, agents and skill name, then the host's id and revision. */
  datatype CombatCall<Args> = CombatCall(args: Args, id: U64, revision: U64)

  /** The body of `__abstract_combat` / `__abstract_combat_local`. The event, the two
      agents and the skill name go through `get_combat_args_from_raw`, a host-library
      converter given here as `convert`; the id and revision are not converted. */
  function CombatAdapter<Raw, Args>(raw: Raw, id: U64, revision: U64, convert: Raw -> Args): (r: CombatCall<Args>)
    ensures r.id == id && r.revision == revision
    ensures r.args == convert(raw)
  {
    CombatCall(convert(raw), id, revision)
  }

  /** The body of `__abstract_extras_squad_update`. The host passes a pointer and a
      count; `records` is the memory at the pointer, which must hold at least `count`
      records for `from_raw_parts` to be sound. The callback receives exactly the first
      `count` records, in order, each converted by `convert_extras_user` (`convert`). */
  function SquadUpdateAdapter<RawUser, User>(records: seq<RawUser>, count: U64, convert: RawUser -> User): (r: seq<User>)
    requires count <= |records|
    ensures |r| == count
    ensures forall i :: 0 <= i < count ==> r[i] == convert(records[i])
  {
    seq(count, i requires 0 <= i < count => convert(records[i]))
  }

  /** Records past the count never reach the callback: what lies in memory after the
      first `count` records does not change what it receives. */
  lemma SquadUpdateReadsOnlyCount<RawUser, User>(records: seq<RawUser>, beyond: seq<RawUser>,
                                                 count: U64, convert: RawUser -> User)
    requires count <= |records|
    ensures SquadUpdateAdapter(records + beyond, count, convert) == SquadUpdateAdapter(records, count, convert)
  {
  }

  /** The UI handle the attach step captured from the host. */
  datatype Ui = Ui(context: nat)

  /** `(*__ui).as_ref().unwrap()` panics when no UI handle was captured. */
  datatype Panic = UnwrapNone

  function CurrentUi(ui: Option<Ui>): (r: Result<Ui, Panic>)
    ensures r.Success? <==> ui.Some?
    ensures r.Success? ==> r.value == ui.value
  {
    match ui
    case Some(u) => Success(u)
    case None => Failure(UnwrapNone)
  }

  /** The arguments `__abstract_imgui` passes to the safe callback. */
  datatype ImguiCall = ImguiCall(ui: Ui, notCharselOrLoading: bool)

  /** `__abstract_imgui`: the host's integer flag becomes a boolean. */
  function ImguiAdapter(ui: Option<Ui>, loading: U32): (r: Result<ImguiCall, Panic>)
    ensures r.Success? <==> ui.Some?
    ensures r.Success? ==> r.value.ui == ui.value && (r.value.notCharselOrLoading <==> loading != 0)
  {
    match CurrentUi(ui)
    case Failure(p) => Failure(p)
    case Success(u) => Success(ImguiCall(u, loading != 0))
  }

  /** `__abstract_options_end`: the callback receives the UI handle only. */
  function OptionsEndAdapter(ui: Option<Ui>): (r: Result<Ui, Panic>)
    ensures r.Success? <==> ui.Some?
    ensures r.Success? ==> r.value == ui.value
  {
    CurrentUi(ui)
  }

  /** `__abstract_options_windows`: the window name (absent for a null pointer) is
      handed over with the UI handle, and the callback's answer is returned as is. */
  function OptionsWindowsAdapter(ui: Option<Ui>, windowName: Option<string>,
                                 safe: (Ui, Option<string>) -> bool): (r: Result<bool, Panic>)
    ensures r.Success? <==> ui.Some?
    ensures r.Success? ==> r.value == safe(ui.value, windowName)
  {
    match CurrentUi(ui)
    case Failure(p) => Failure(p)
    case Success(u) => Success(safe(u, windowName))
  }
}
