/** The declaration parser of the `arcdps_export!` macro: a list of `field: expr`
    pairs becomes a configuration with, per callback slot, at most one of a raw
    and a safe expression, plus the required signature and optional name, init
    and release expressions. */
module Parse {
  import opened Common

  /** The eleven callback slots a declaration may bind. */
  datatype Slot =
    | Combat | CombatLocal | Imgui | OptionsEnd | OptionsWindows | WndFilter | WndNofilter
    | ExtrasInit | ExtrasSquadUpdate | ExtrasChatMessage | ExtrasChatMessage2

  /** The field name of the safe variant of a slot. */
  function SlotName(s: Slot): string
  {
    match s
    case Combat => "combat"
    case CombatLocal => "combat_local"
    case Imgui => "imgui"
    case OptionsEnd => "options_end"
    case OptionsWindows => "options_windows"
    case WndFilter => "wnd_filter"
    case WndNofilter => "wnd_nofilter"
    case ExtrasInit => "unofficial_extras_init"
    case ExtrasSquadUpdate => "unofficial_extras_squad_update"
    case ExtrasChatMessage => "unofficial_extras_chat_message"
    case ExtrasChatMessage2 => "unofficial_extras_chat_message2"
  }

  /** The slot whose safe field is called `n`, if any. */
  function SlotOf(n: string): (r: Option<Slot>)
    ensures r.Some? ==> SlotName(r.value) == n
    ensures r.None? ==> forall s :: SlotName(s) != n
  {
    if n == "combat" then Some(Combat)
    else if n == "combat_local" then Some(CombatLocal)
    else if n == "imgui" then Some(Imgui)
    else if n == "options_end" then Some(OptionsEnd)
    else if n == "options_windows" then Some(OptionsWindows)
    else if n == "wnd_filter" then Some(WndFilter)
    else if n == "wnd_nofilter" then Some(WndNofilter)
    else if n == "unofficial_extras_init" then Some(ExtrasInit)
    else if n == "unofficial_extras_squad_update" then Some(ExtrasSquadUpdate)
    else if n == "unofficial_extras_chat_message" then Some(ExtrasChatMessage)
    else if n == "unofficial_extras_chat_message2" then Some(ExtrasChatMessage2)
    else None
  }

  /** One of the 22 slot fields: the raw (`raw_X`) or the safe (`X`) variant of a slot. */
  datatype FieldKey = Raw(slot: Slot) | Safe(slot: Slot)

  function KeyName(k: FieldKey): string
  {
    match k
    case Raw(s) => "raw_" + SlotName(s)
    case Safe(s) => SlotName(s)
  }

  /** The other variant of the same slot: the two are mutually exclusive. */
  function Partner(k: FieldKey): (p: FieldKey)
    ensures p.slot == k.slot && p != k && p.Raw? == k.Safe?
  {
    match k
    case Raw(s) => Safe(s)
    case Safe(s) => Raw(s)
  }

  /** The slot field named `n`, if any: the arms that `match_parse!` generates. */
  function KeyOf(n: string): (r: Option<FieldKey>)
    ensures r.Some? ==> KeyName(r.value) == n
  {
    if |n| >= 4 && n[..4] == "raw_" && SlotOf(n[4..]).Some? then Some(Raw(SlotOf(n[4..]).value))
    else if SlotOf(n).Some? then Some(Safe(SlotOf(n).value))
    else None
  }

  /** Every slot field name is recognised as exactly that field, and none of them is
      one of the four fields the parser matches before the slot fields. */
  lemma KeyNameRecognised(k: FieldKey)
    ensures KeyOf(KeyName(k)) == Some(k)
    ensures KeyName(k) !in {"name", "sig", "init", "release"}
  {
  }

  /** Slot field names identify their field. */
  lemma KeyNameInjective(k: FieldKey, k': FieldKey)
    requires KeyName(k) == KeyName(k')
    ensures k == k'
  {
    KeyNameRecognised(k);
    KeyNameRecognised(k');
  }

  /** A field name the parser accepts. */
  predicate IsKnownField(n: string)
  {
    n in {"name", "sig", "init", "release"} || KeyOf(n).Some?
  }

  datatype Member = Named(ident: string) | Unnamed(index: nat)

  /** One `member: expr` pair of the declaration. */
  datatype Field = Field(member: Member, expr: Expr)

  datatype ParseError =
    | FieldMustHaveName
    | NameNotStrLiteral
    | NoSuchField(field: string)
    | Exclusive(second: FieldKey)
    | SigRequired

  /** The diagnostic text of each error (the span it points at is not modelled). */
  function Message(e: ParseError): string
  {
    match e
    case FieldMustHaveName => "field must have a name"
    case NameNotStrLiteral => "name needs to be a literal of type &'static str"
    case NoSuchField(n) => "no field named " + n + " exists"
    case Exclusive(k) => KeyName(k) + " and " + KeyName(Partner(k)) + " are exclusive"
    case SigRequired => "sig field is required"
  }

  /** The parsed declaration; `slots` holds the slot fields that are set. */
  datatype Config = Config(
    name: Option<string>,
    sig: Expr,
    init: Option<Expr>,
    release: Option<Expr>,
    slots: map<FieldKey, Expr>)

  function Get(slots: map<FieldKey, Expr>, k: FieldKey): Option<Expr>
  {
    if k in slots then Some(slots[k]) else None
  }

  /** No slot has both its raw and its safe variant set. */
  ghost predicate ExclusiveSlots(c: Config)
  {
    forall k :: k in c.slots ==> Partner(k) !in c.slots
  }

  /** The signature placeholder: an empty verbatim token stream. */
  const Placeholder := Expr(0, Verbatim)

  const Blank := Config(None, Placeholder, None, None, map[])

  /** The parser's loop state: the configuration so far and whether `sig` was seen. */
  datatype Progress = Progress(gen: Config, sigDone: bool)

  const Start := Progress(Blank, false)

  /** What one field does to the loop state, or the error it stops the parse with. */
  function Step(p: Progress, f: Field): Result<Progress, ParseError>
  {
    match f.member
    case Unnamed(_) => Failure(FieldMustHaveName)
    case Named(n) =>
      if n == "name" then
        if f.expr.kind.StrLit? then Success(p.(gen := p.gen.(name := Some(f.expr.kind.text))))
        else Failure(NameNotStrLiteral)
      else if n == "sig" then Success(Progress(p.gen.(sig := f.expr), true))
      else if n == "init" then Success(p.(gen := p.gen.(init := Some(f.expr))))
      else if n == "release" then Success(p.(gen := p.gen.(release := Some(f.expr))))
      else match KeyOf(n)
        case None => Failure(NoSuchField(n))
        case Some(k) =>
          if Partner(k) in p.gen.slots then Failure(Exclusive(k))
          else Success(p.(gen := p.gen.(slots := p.gen.slots[k := f.expr])))
  }

  /** The fields processed in order from `p`, stopping at the first error. */
  function Fold(p: Progress, fs: seq<Field>): Result<Progress, ParseError>
    decreases |fs|
  {
    if fs == [] then Success(p)
    else match Step(p, fs[0])
      case Failure(e) => Failure(e)
      case Success(q) => Fold(q, fs[1..])
  }

  /** The whole parse: every field, then the check that `sig` was given. */
  function ParseSpec(fs: seq<Field>): Result<Config, ParseError>
  {
    match Fold(Start, fs)
    case Failure(e) => Failure(e)
    case Success(p) => if p.sigDone then Success(p.gen) else Failure(SigRequired)
  }

  /** The expression of the last field named `n`, if any. */
  function Last(fs: seq<Field>, n: string): Option<Expr>
    decreases |fs|
  {
    if fs == [] then None
    else Or(Last(fs[1..], n), if fs[0].member == Named(n) then Some(fs[0].expr) else None)
  }

  /** `ArcDpsGen::parse`: the imperative loop over the fields. */
  method Parse(fields: seq<Field>) returns (r: Result<Config, ParseError>)
    ensures r == ParseSpec(fields)
  {
    var gen := Blank;
    var sigDone := false;
    for i := 0 to |fields|
      invariant Fold(Start, fields) == Fold(Progress(gen, sigDone), fields[i..])
    {
      assert fields[i..][1..] == fields[i + 1..];
      var field := fields[i];
      if field.member.Unnamed? {
        return Failure(FieldMustHaveName);
      }
      var name := field.member.ident;
      if name == "name" {
        if !field.expr.kind.StrLit? {
          return Failure(NameNotStrLiteral);
        }
        gen := gen.(name := Some(field.expr.kind.text));
      } else if name == "sig" {
        sigDone := true;
        gen := gen.(sig := field.expr);
      } else if name == "init" {
        gen := gen.(init := Some(field.expr));
      } else if name == "release" {
        gen := gen.(release := Some(field.expr));
      } else {
        match KeyOf(name) {
          case None =>
            return Failure(NoSuchField(name));
          case Some(key) =>
            gen := gen.(slots := gen.slots[key := field.expr]);
            if Partner(key) in gen.slots {
              return Failure(Exclusive(key));
            }
        }
      }
    }
    if !sigDone {
      return Failure(SigRequired);
    }
    return Success(gen);
  }

  /** Processing `a + b` is processing `a`, then `b` from where `a` left off. */
  lemma {:induction false} FoldAppend(p: Progress, a: seq<Field>, b: seq<Field>)
    ensures Fold(p, a + b) == match Fold(p, a)
                              case Failure(e) => Failure(e)
                              case Success(q) => Fold(q, b)
    decreases |a|
  {
    if a == [] {
      assert a + b == b;
    } else {
      assert (a + b)[0] == a[0];
      assert (a + b)[1..] == a[1..] + b;
      match Step(p, a[0])
      case Failure(e) =>
      case Success(q) => FoldAppend(q, a[1..], b);
    }
  }

  /** One accepted field sets the slot field it names and leaves the others alone. */
  lemma StepSlot(p: Progress, f: Field, k: FieldKey)
    requires Step(p, f).Success?
    ensures Get(Step(p, f).value.gen.slots, k) ==
              if f.member == Named(KeyName(k)) then Some(f.expr) else Get(p.gen.slots, k)
  {
    KeyNameRecognised(k);
    if f.member.Named? && KeyOf(f.member.ident).Some? {
      var k' := KeyOf(f.member.ident).value;
      KeyNameRecognised(k');
      if k' != k {
        assert f.member != Named(KeyName(k)) by {
          if f.member == Named(KeyName(k)) { KeyNameInjective(k, k'); }
        }
      }
    }
  }

  /** After a successful run over `fs`, every slot field holds the value of the last
      field of that name, or its earlier value, and no step lets both variants in. */
  lemma {:induction false} FoldTracksSlots(p: Progress, fs: seq<Field>)
    requires Fold(p, fs).Success?
    ensures var q := Fold(p, fs).value;
      && (forall k :: Get(q.gen.slots, k) == Or(Last(fs, KeyName(k)), Get(p.gen.slots, k)))
      && (ExclusiveSlots(p.gen) ==> ExclusiveSlots(q.gen))
    decreases |fs|
  {
    if fs != [] {
      var p1 := Step(p, fs[0]).value;
      FoldTracksSlots(p1, fs[1..]);
      forall k ensures Get(Fold(p, fs).value.gen.slots, k) == Or(Last(fs, KeyName(k)), Get(p.gen.slots, k)) {
        StepSlot(p, fs[0], k);
      }
    }
  }

  /** After a successful run over `fs`, `sig`, `init`, `release` and `name` hold the
      value of the last field of that name, or their earlier value; `sig` was seen
      exactly when some field is named `sig`; and a `name` was a string literal. */
  lemma {:induction false} FoldTracksFields(p: Progress, fs: seq<Field>)
    requires Fold(p, fs).Success?
    ensures var q := Fold(p, fs).value;
      && q.sigDone == (p.sigDone || Last(fs, "sig").Some?)
      && q.gen.sig == (if Last(fs, "sig").Some? then Last(fs, "sig").value else p.gen.sig)
      && q.gen.init == Or(Last(fs, "init"), p.gen.init)
      && q.gen.release == Or(Last(fs, "release"), p.gen.release)
      && (Last(fs, "name").Some? ==> Last(fs, "name").value.kind.StrLit?)
      && q.gen.name == (if Last(fs, "name").Some? then Some(Last(fs, "name").value.kind.text) else p.gen.name)
    decreases |fs|
  {
    if fs != [] {
      FoldTracksFields(Step(p, fs[0]).value, fs[1..]);
    }
  }

  /** After a successful run over `fs`, every field holds the value of the last field
      of that name in `fs`, or its earlier value when `fs` has none; `sig` was seen
      exactly when some field is named `sig`; and no step lets both variants of a
      slot in. */
  lemma FoldTracks(p: Progress, fs: seq<Field>)
    requires Fold(p, fs).Success?
    ensures var q := Fold(p, fs).value;
      && q.sigDone == (p.sigDone || Last(fs, "sig").Some?)
      && q.gen.sig == (if Last(fs, "sig").Some? then Last(fs, "sig").value else p.gen.sig)
      && q.gen.init == Or(Last(fs, "init"), p.gen.init)
      && q.gen.release == Or(Last(fs, "release"), p.gen.release)
      && (Last(fs, "name").Some? ==> Last(fs, "name").value.kind.StrLit?)
      && q.gen.name == (if Last(fs, "name").Some? then Some(Last(fs, "name").value.kind.text) else p.gen.name)
      && (forall k :: Get(q.gen.slots, k) == Or(Last(fs, KeyName(k)), Get(p.gen.slots, k)))
      && (ExclusiveSlots(p.gen) ==> ExclusiveSlots(q.gen))
  {
    FoldTracksFields(p, fs);
    FoldTracksSlots(p, fs);
  }

  /** A successful parse holds, for every field, the value of the last field of that
      name (so a repeated `sig`, `init`, `release` or slot field replaces the earlier
      one), `None` for every field never mentioned, and never both variants of a slot. */
  lemma ParsedConfig(fs: seq<Field>, cfg: Config)
    requires ParseSpec(fs) == Success(cfg)
    ensures Last(fs, "sig") == Some(cfg.sig)
    ensures cfg.init == Last(fs, "init") && cfg.release == Last(fs, "release")
    ensures Last(fs, "name").Some? ==> Last(fs, "name").value.kind.StrLit?
    ensures cfg.name == if Last(fs, "name").Some? then Some(Last(fs, "name").value.kind.text) else None
    ensures forall k :: Get(cfg.slots, k) == Last(fs, KeyName(k))
    ensures ExclusiveSlots(cfg)
  {
    FoldTracks(Start, fs);
  }

  /** No field makes the loop fail with the missing-signature error. */
  lemma {:induction false} FoldNeverSigRequired(p: Progress, fs: seq<Field>)
    ensures Fold(p, fs) != Failure(SigRequired)
    decreases |fs|
  {
    if fs != [] && Step(p, fs[0]).Success? {
      FoldNeverSigRequired(Step(p, fs[0]).value, fs[1..]);
    }
  }

  /** Without a `sig` field the parse fails; it fails with "sig field is required"
      exactly when every field was accepted and none is named `sig`. */
  lemma MissingSig(fs: seq<Field>)
    ensures Last(fs, "sig").None? ==> ParseSpec(fs).Failure?
    ensures ParseSpec(fs) == Failure(SigRequired) <==> Fold(Start, fs).Success? && Last(fs, "sig").None?
  {
    FoldNeverSigRequired(Start, fs);
    if Fold(Start, fs).Success? {
      FoldTracks(Start, fs);
    }
  }

  /** When every field before `f` was accepted, the parse returns the error `f` raises,
      whatever follows it and whether or not `sig` was given: an unnamed field, a
      non-literal `name`, an unknown field name, or the second variant of a slot whose
      other variant an earlier field set. */
  lemma FirstOffendingField(pre: seq<Field>, f: Field, post: seq<Field>)
    requires Fold(Start, pre).Success?
    ensures f.member.Unnamed? ==> ParseSpec(pre + [f] + post) == Failure(FieldMustHaveName)
    ensures f.member == Named("name") && !f.expr.kind.StrLit? ==>
              ParseSpec(pre + [f] + post) == Failure(NameNotStrLiteral)
    ensures f.member.Named? && !IsKnownField(f.member.ident) ==>
              ParseSpec(pre + [f] + post) == Failure(NoSuchField(f.member.ident))
    ensures forall k :: f.member == Named(KeyName(k)) && Last(pre, KeyName(Partner(k))).Some? ==>
              ParseSpec(pre + [f] + post) == Failure(Exclusive(k))
  {
    var p := Fold(Start, pre).value;
    FoldTracks(Start, pre);
    FoldAppend(Start, pre, [f] + post);
    assert pre + [f] + post == pre + ([f] + post);
    assert ([f] + post)[0] == f && ([f] + post)[1..] == post;
    forall k | f.member == Named(KeyName(k)) && Last(pre, KeyName(Partner(k))).Some?
      ensures ParseSpec(pre + [f] + post) == Failure(Exclusive(k))
    {
      KeyNameRecognised(k);
      assert Get(p.gen.slots, Partner(k)).Some?;
    }
  }
}
