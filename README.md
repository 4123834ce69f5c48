# arcdps export generator — a Dafny model

`arcdps_export!` is a Rust procedural macro. It turns a declarative `field: expr` list into the
export table that the arcdps plugin host loads. It also emits the adapter functions that sit
between the host's native callbacks and idiomatic Rust callbacks, the optional
`arcdps_unofficial_extras_subscriber_init` entry point, and the `get_init_addr` /
`get_release_addr` lifecycle functions over a few module statics.

The model follows the decisions the macro makes and the behaviour of the code it emits. User
expressions are opaque values (`Common.Expr`); token streams are not modelled.

- `common.dfy` (`Common`): `Option`, `Result`, and the opaque `Expr`. An expression's kind
  records whether it is a string literal, which the `name` field needs, or the empty verbatim
  placeholder that `sig` starts as; every other expression is `Other`.
- `parse.dfy` (`Parse`): the declaration parser (`ArcDpsGen::parse`).
  - `Parse.Parse` is the imperative loop over the fields. It is proved equal to `ParseSpec`, a
    left fold of `Step` over the fields followed by the `sig` check.
  - The lemmas then state, about `ParseSpec`:
    - which error the first offending field produces;
    - when the missing-`sig` error appears;
    - what a successful configuration holds (the last value of each field wins, unmentioned
      fields stay `None`, raw/safe exclusivity).
  - Errors are a datatype. `Message` gives their diagnostic text.
- `slots.dfy` (`Slots`): the three-way decision shared by every `build_*` function. The outcomes
  are pass the raw expression through, generate a named adapter around the safe expression, or
  leave the slot empty.
- `adapters.dfy` (`Adapters`): what the combat, extras squad update, keyboard filter and UI
  (`imgui`, `options_end`, `options_windows`) adapters compute when the host calls them. Each is
  a pure function of the native arguments, the safe callback and the host-library converter.
- `extras.dfy` (`Extras`): the extras subscriber record as a class.
  - `FillV1` / `FillV2` / `FillV3` overwrite its fields in place, each calling the one below it.
    `Init` does the version guard and the dispatch on `max_info_version`.
  - All of them are proved against `Populated`, a closed-form description of the record after
    population at a tier.
  - `BuildExtrasInit` decides which entry point is emitted. `SubscriberInit` runs it.
- `export.dfy` (`Export`): the macro expansion as a value (`Generate`: both tables, the emitted
  adapters, the extras entry).
  - The `Plugin` class holds the statics `__EXPORT`, `__EXPORT_ERROR`, `__ERROR_STRING`,
    `__SWAPCHAIN` and `__UI`, and the lifecycle functions `get_init_addr`, `__load`,
    `get_release_addr` and `__unload`.
  - `__load` stores the wrong address on its error path (see "## Findings"). `LoadAsWritten`
    keeps that behaviour, and `Load` stores the address of the error text instead.

Integer widths: message codes are `u32` and `lParam` is a 64-bit `isize`, both as bounded `int`
subset types. `msg & 1 == 0` is written `msg % 2 == 0`. `(l_param >> 30) & 1 == 1` is written
`(l / 2^30) % 2 == 1`, because an arithmetic right shift rounds down, as Dafny's `/` does for a
positive divisor.

Details of the emitted code that the model keeps:

- The extras account name loses *all* leading `:` (`trim_start_matches`), not just one.
- When the api-version or info-version guard fails, the generated entry point returns before
  calling the safe extras init at all. The safe init is therefore not called in that case.
- The v1 fill sets the language-changed and key-bind-changed callbacks to `None`. It does not
  touch the chat fields, which belong to the v2 and v3 parts of the record.
- The declared `sig` is emitted as written and never checked. A signature of 0 makes the host
  take the success table for a failed load (`Export.DeclaredZeroSignature`). The host's test
  of a signature expression is the parameter `isZero` of `Export.HostReport`.
- A `chat_message2` callback bound on its own gets its adapter emitted, but no entry point is
  emitted. The extras host is therefore never told about it (`Export.ChatMessage2AloneNotRegistered`).

## Model

| member | source | states |
|---|---|---|
| `Parse.SlotOf` | codegen/src/parse.rs:143-158 | a field name maps to the slot whose safe field it names, and a name no slot has maps to nothing |
| `Parse.KeyOf` | codegen/src/parse.rs:9-37 | a recognised slot field name is exactly the name of the field it is recognised as |
| `Parse.Partner` | codegen/src/parse.rs:11-28 | the exclusive partner of `raw_X` is `X` and vice versa: same slot, other variant |
| `Parse.KeyNameRecognised` | codegen/src/parse.rs:9-37 | each of the 22 slot field names is recognised as its own field, and none is `name`, `sig`, `init` or `release` |
| `Parse.KeyNameInjective` | codegen/src/parse.rs:9-37 | two slot fields with the same name are the same field |
| `Parse.Parse` | codegen/src/parse.rs:72-171 | the loop over the fields returns exactly the result of processing the fields in order, stopping at the first error, then requiring `sig` |
| `Parse.FoldAppend` | codegen/src/parse.rs:109-164 | processing `a + b` is processing `a` and then `b` from where `a` left off, unless `a` already failed |
| `Parse.StepSlot` | codegen/src/parse.rs:142-159 | an accepted field sets exactly the slot field it names and leaves every other slot field as it was |
| `Parse.FoldTracksSlots` | codegen/src/parse.rs:109-164 | after accepted fields, every slot field holds the last value given to it or its earlier value, and exclusivity is preserved |
| `Parse.FoldTracksFields` | codegen/src/parse.rs:109-164 | after accepted fields, `sig`, `init`, `release` and `name` hold the last value given or their earlier value, `sig` was seen iff some field is `sig`, and `name` fields were string literals |
| `Parse.FoldTracks` | codegen/src/parse.rs:109-164 | after accepted fields, every field holds the value of the last field of that name or its earlier value; `sig` was seen iff some field is `sig`; `name` fields were string literals; exclusivity is preserved |
| `Parse.ParsedConfig` | codegen/src/parse.rs:75-170 | a successful parse holds the last value of each field (repeats replace earlier values), `None` for unmentioned fields, a `sig`, and never both variants of a slot |
| `Parse.FoldNeverSigRequired` | codegen/src/parse.rs:109-164 | no field, accepted or not, raises the missing-`sig` error |
| `Parse.MissingSig` | codegen/src/parse.rs:166-168 | without a `sig` field the parse fails; it fails with "sig field is required" exactly when all fields were accepted and none is `sig` |
| `Parse.FirstOffendingField` | codegen/src/parse.rs:109-164 | after accepted fields, an unnamed field, a non-literal `name`, an unknown field name, or the second variant of a slot whose partner was given earlier (either order) decides the error, whatever follows |
| `Slots.AdapterNamesDistinct` | codegen/src/lib.rs:384-390 | different slots get differently named adapter functions |
| `Slots.Resolve` | codegen/src/lib.rs:398-429 | a raw expression is passed through with no adapter; a safe one alone yields an emitted adapter, named after the slot and wrapping it, that the field refers to; neither leaves the field empty; an adapter is emitted iff the field refers to one |
| `Slots.ResolvedFromParse` | codegen/src/lib.rs:28-39 | for a parsed declaration, a slot's raw field becomes the table value with no adapter, its safe field alone becomes a reference to the adapter wrapping it, and neither leaves it empty |
| `Adapters.ShiftedBit30IsBit30` | codegen/src/lib.rs:414 | the arithmetic shift-and-mask tests bit 30 of the two's complement value: set iff the value modulo 2^31 is at least 2^30, negative values included |
| `Adapters.WndAdapter` | codegen/src/lib.rs:405-425 | for the four key messages the callback gets (wParam, key down iff WM_KEYDOWN/WM_SYSKEYDOWN, previous-state bit 30 of lParam), and the adapter returns the message if the callback accepts and 0 if not; any other message is returned unchanged with no call |
| `Adapters.CombatAdapter` | codegen/src/lib.rs:533-543 | the callback gets the converted event, agents and skill name, and the host's id and revision unchanged |
| `Adapters.SquadUpdateAdapter` | codegen/src/lib.rs:222-226 | the callback gets exactly the first `count` records at the host's pointer, in order, each converted |
| `Adapters.SquadUpdateReadsOnlyCount` | codegen/src/lib.rs:224 | memory past the first `count` records never changes what the callback receives |
| `Adapters.CurrentUi` | codegen/src/lib.rs:448-449 | the captured UI handle is used when present; its absence is the unwrap panic |
| `Adapters.ImguiAdapter` | codegen/src/lib.rs:494-500 | the callback gets the captured UI handle and a flag that is true exactly for a nonzero `loading` |
| `Adapters.OptionsEndAdapter` | codegen/src/lib.rs:471-477 | the callback gets the captured UI handle only |
| `Adapters.OptionsWindowsAdapter` | codegen/src/lib.rs:445-451 | the callback gets the UI handle and the window name, and its answer is returned unchanged |
| `Extras.Tier` | codegen/src/lib.rs:340-344 | the dispatch on `max_info_version` selects the tier min(max_info_version, 3) |
| `Extras.Subscriber.FillV1` | codegen/src/lib.rs:312-320 | stamps version 1, writes the name and squad callback, clears the language and key bind callbacks, and leaves the chat fields alone |
| `Extras.Subscriber.FillV2` | codegen/src/lib.rs:322-329 | the v1 population, then version 2 and the chat callback |
| `Extras.Subscriber.FillV3` | codegen/src/lib.rs:331-338 | the v2 population, then version 3 and the second chat callback |
| `Extras.Subscriber.Init` | codegen/src/lib.rs:305-344 | with api version 2 and a maximum info version of at least 1, population at tier min(max, 3); otherwise nothing is written; reports whether the guard passed |
| `Extras.RejectedInitWritesNothing` | codegen/src/lib.rs:305-310 | with api version other than 2 or maximum info version below 1 the record is unchanged |
| `Extras.AcceptedInitTiers` | codegen/src/lib.rs:312-344 | an accepted init stamps tag min(max_info_version, 3), always writes name, squad callback and empty language and key bind callbacks, the chat callback iff max >= 2 and the second chat callback iff max >= 3 |
| `Extras.PopulatedFrame` | codegen/src/lib.rs:312-338 | a tier's population changes no field outside the fields that tier writes |
| `Extras.CascadeNests` | codegen/src/lib.rs:312-338 | v1 writes are among v2 writes, which are among v3 writes; a higher tier writes the same values as a lower tier except the tag; populating at a lower tier first changes nothing |
| `Extras.TrimLeadingColons` | codegen/src/lib.rs:362-363 | the result is the input without its whole run of leading colons: a suffix, not starting with `:`, preceded only by colons |
| `Extras.BuildExtrasInit` | codegen/src/lib.rs:291-371 | a raw init is forwarded; otherwise an entry point is emitted iff a safe init, a squad update or a chat message callback is bound, and it registers the name and the three callbacks |
| `Extras.SubscriberInit` | codegen/src/lib.rs:347-381 | a raw init receives the host's arguments and the generated code writes nothing; otherwise the record is populated, and a safe init then gets the account name without leading colons and the version string, unless the guard returned early |
| `Export.EmittedMembership` | codegen/src/lib.rs:149-158 | an adapter is emitted exactly for slots bound only through their safe field, named after its slot and wrapping that field |
| `Export.EmittedNamesDistinct` | codegen/src/lib.rs:149-158 | adapters emitted for distinct slots have distinct names |
| `Export.TableSlotsResolved` | codegen/src/lib.rs:41-56 | each of the 7 table fields holds the raw expression with no adapter emitted for its slot, or a reference to an emitted adapter wrapping the safe expression, or `None` with no adapter |
| `Export.TableReferencesEmitted` | codegen/src/lib.rs:41-56 | every adapter a table field refers to is emitted for that field's slot |
| `Export.ExtrasReferencesEmitted` | codegen/src/lib.rs:84-91 | every adapter the extras registration refers to is emitted |
| `Export.AdapterNamesUnique` | codegen/src/lib.rs:149-158 | the expansion never emits two adapters with the same name |
| `Export.TablesMetadata` | codegen/src/lib.rs:161-175 | both tables have imgui version 18000 and the same build string (package version plus nul) and name string (declared or package name plus nul); the error table has size 0, signature 0 and no callbacks |
| `Export.ExtrasEntryFromConfig` | codegen/src/lib.rs:72-91 | raw extras init is forwarded; safe init gets population registering the export name and resolved callbacks; with neither, population alone iff squad update or chat message is bound, else no entry point |
| `Export.ChatMessage2AloneNotRegistered` | codegen/src/lib.rs:299 | a second chat callback bound alone gets its adapter but no entry point |
| `Export.Plugin.constructor` | codegen/src/lib.rs:161-177 | the statics start as the two generated tables, an empty error string and no swapchain or UI |
| `Export.Plugin.GetInitAddr` | codegen/src/lib.rs:100-116 | keeps the host's UI context and the swapchain (`None` for null), keeps the statics' invariant, and returns `__load` |
| `Export.Plugin.LoadAsWritten` | codegen/src/lib.rs:179-191 | as written: without an init hook or when it succeeds, the success table, which the host reads as a successful load exactly when the declared signature is nonzero; on error, the error text plus nul is stored, the error table's size becomes the address of the `String` static itself, the error table is returned, and the host reads the `String`'s header bytes from it, not the text; the success table is never written |
| `Export.Plugin.Load` | codegen/src/lib.rs:179-191 | with the size set to the address of the characters: the same, except that on error the host reads the error text up to its first nul, which is the whole text when it has no nul |
| `Export.Plugin.GetReleaseAddr` | codegen/src/lib.rs:199-203 | always returns `__unload` |
| `Export.Plugin.Unload` | codegen/src/lib.rs:193-195 | calls the release hook if there is one |
| `Export.FailingLoad` | codegen/src/lib.rs:179-191 | for the statics generated from any declaration with an init hook: after attach, a hook failing with "boom" gives the host the error table, with no callbacks, from which it reads "boom", while the success table is the generated one |
| `Export.FailingLoadAsWritten` | codegen/src/lib.rs:179-191 | the same session as written: the host gets the error table, `__ERROR_STRING` holds "boom\0", but the host reads the `String`'s header bytes, not "boom" |
| `Export.UpToNul` | codegen/src/lib.rs:184 | the C string the host reads at a text: its longest prefix without a nul, stopping at the first nul |
| `Export.UpToNulTerminated` | codegen/src/lib.rs:184 | a nul-free text with one nul appended reads back as itself |
| `Export.HostReport` | codegen/src/lib.rs:185 | the host reports nothing exactly when the table's signature is nonzero; otherwise it reads the error text exactly when the size is the address of the string's characters, and the `String` header exactly when it is the address of the `String` static |
| `Export.DeclaredZeroSignature` | codegen/src/lib.rs:44 | the declared signature is emitted unchecked: the host reads the success table as a success exactly when it is nonzero, and with a signature of 0 reads the table's byte size as an error string address |
| `Export.AsWrittenErrorUnreadable` | codegen/src/lib.rs:185 | storing `&raw const __ERROR_STRING` never gives the host the error text |
| `Export.CorrectedErrorReadable` | codegen/src/lib.rs:184-185 | storing the address of the characters gives the host exactly the error text, for any text without a nul |

## Findings

| source | as written | input that shows it | evidently intended | confidence | as-written member | corrected member |
|---|---|---|---|---|---|---|
| codegen/src/lib.rs:185 | `__EXPORT_ERROR.size = &raw const __ERROR_STRING as _` stores the address of the `String` static, whose bytes are its pointer, capacity and length | an init hook returning an error whose text is "boom": the host, reading the size field of the signature-0 table as a C string, gets the `String` header, not "boom" | `__ERROR_STRING.as_ptr() as _`, the address of "boom\0" | high; not executed | `Export.AsWrittenErrorUnreadable` | `Export.CorrectedErrorReadable` |

The rest of the model uses the corrected `Export.Plugin.Load`. `Export.Plugin.LoadAsWritten` and
`Export.FailingLoadAsWritten` keep the code as written.

## Left out

- Token streams, spans and `quote!` mechanics. Expressions are opaque values, and each error's
  location is not kept.
- The `let _ = #safe as …Callback` lines. They are compile-time type checks with no runtime
  behaviour.
- The `::arcdps::helpers` converters (`get_combat_args_from_raw`, `convert_extras_user`,
  `convert_extras_squad_chat_message`, `convert_extras_chat_message2`). They are foreign code.
  The combat and squad update adapters take them as parameters. The two chat message adapters
  do nothing but convert and call, so only their provisioning and naming are modelled
  (`Slots.Resolve`).
- The byte contents of the `String` header (pointer, capacity, length) that the host reads on
  the as-written error path: `Export.HostReport` only says they are not the text.
- `get_str_from_pc_char`: the host's C strings arrive as `Option<string>`, with `None` for a
  null pointer.
- ImGui context and allocator setup, `::arcdps::__init`, and the arcdps version and DLL
  arguments of `get_init_addr`. These are foreign calls. The model keeps only the UI handle
  and the swapchain.
- `CARGO_PKG_VERSION` / `CARGO_PKG_NAME`: they are parameters of `Export.Generate`. The panic
  when they are unset is not modelled.
- Byte layout and `size_of::<ArcDpsExport>()`: the table's size is the symbolic `SizeOfExport`.
  The pointer casts between the InfoV1/V2/V3 records are modelled as one record whose fields
  the tiers share.
- Extras.SubscriberInit: for a raw extras init, the model says only that the generated code
  writes nothing. What the user's raw function does with the record is outside the model.
- `static mut` and `unsafe`: the statics are fields of `Export.Plugin`, used sequentially.
- The build variant without the `imgui` feature. The model is the `imgui` variant, where
  `get_init_addr` also captures the UI handle.
- Rust raw identifiers (`r#name`) as field names.
