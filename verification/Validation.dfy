/** The start-up check of composite devices, and the devices it lets through. */
module Validation {
  import opened Common
  import opened Composite

  // ---- configuration ----

  datatype Mode = Mirror | Mapped | OtherMode

  /** A composite's `members`: a list of names, a dict of overrides (None where the value is empty), or neither. */
  datatype Members = ListOf(names: seq<string>) | DictOf(keys: seq<string>, overrides: map<string,
      Override>) | NoMembers

  /** A device's type, or a name that is no type. */
  datatype Kind = Known(t: DeviceType) | Unknown(name: string)

  datatype Values =
    | Single(kind: Kind)
    | Group(mode: Mode, members: Members, primary: Option<string>, allowPartialGain: bool)

  type Config = map<string, Values>

  function MemberNames(m: Members): seq<string> {
    match m
    case ListOf(names) => names
    case DictOf(keys, _) => keys
    case NoMembers => []
  }

  predicate IsComposite(cfg: Config, n: string) { n in cfg && cfg[n].Group? }

  function NamesOf(cfg: Config, n: string): seq<string>
    requires IsComposite(cfg, n)
  {
    MemberNames(cfg[n].members)
  }

  function KindOf(cfg: Config, m: string): Kind {
    if m in cfg && cfg[m].Single? then cfg[m].kind else Unknown("composite")
  }

  const BALANCE_OPS: seq<Op> := [SetGain, Mute, Unmute]

  // ---- what is right about a configuration ----

  /** The operations a member of a mapped composite carries out. */
  function Effective(t: DeviceType, overrides: map<string, Override>, m: string): set<Op> {
    SupportedOps(t) - if m in overrides then overrides[m].skipOps else {}
  }

  /** Whether a member of a mapped composite carries out an operation. */
  predicate Supports(cfg: Config, overrides: map<string, Override>, m: string, op: Op) {
    KindOf(cfg, m).Known? && op in Effective(KindOf(cfg, m).t, overrides, m)
  }

  predicate AllOrNone(cfg: Config, names: seq<string>, overrides: map<string, Override>, op: Op) {
    || (forall i :: 0 <= i < |names| ==> Supports(cfg, overrides, names[i], op))
    || (forall i :: 0 <= i < |names| ==> !Supports(cfg, overrides, names[i], op))
  }

  /** No balance operation reaches some members of a mapped composite but not others. */
  predicate NoPartialGain(cfg: Config, v: Values)
    requires v.Group?
  {
    v.allowPartialGain ||
    (v.members.DictOf?
     && (forall i :: 0 <= i < |v.members.keys| ==> KindOf(cfg, v.members.keys[i]).Known?)
     && (forall op :: op in BALANCE_OPS ==> AllOrNone(cfg, v.members.keys, v.members.overrides, op)))
  }

  predicate ModeIsRight(cfg: Config, n: string)
    requires IsComposite(cfg, n)
  {
    var v, names := cfg[n], NamesOf(cfg, n);
    match v.mode
    case OtherMode => false
    case Mirror => forall i, j :: 0 <= i < j < |names| ==> KindOf(cfg, names[i]) == KindOf(cfg, names[j])
    case Mapped => v.primary.Some? && v.primary.value != "" && v.primary.value in names && NoPartialGain(cfg, v)
  }

  predicate MembersAreRight(cfg: Config, n: string)
    requires IsComposite(cfg, n)
  {
    var names := NamesOf(cfg, n);
    names != [] && Distinct(names) && forall i :: 0 <= i < |names| ==> names[i] in cfg && !IsComposite(cfg, names[i])
  }

  predicate NothingShared(cfg: Config, a: string, b: string)
    requires IsComposite(cfg, a) && IsComposite(cfg, b)
  {
    forall m :: m in NamesOf(cfg, a) ==> m !in NamesOf(cfg, b)
  }

  /** The configurations ezbeq starts with. */
  ghost predicate Acceptable(cfg: Config) {
    && (forall n :: IsComposite(cfg, n) ==> MembersAreRight(cfg, n) && ModeIsRight(cfg, n))
    && (forall a, b :: IsComposite(cfg, a) && IsComposite(cfg, b) && a != b ==> NothingShared(cfg, a, b))
  }

  // ---- the check ----

  datatype ConfigError =
    | InvalidMode(name: string)
    | NoMembersIn(name: string)
    | UnknownMember(name: string, member: string)
    | NestedComposite(name: string, member: string)
    | SharedMember(member: string, first: string, second: string)
    | DifferingTypes(name: string)
    | PrimaryMissing(name: string)
    | PrimaryNotMember(name: string)
    | PartialGain(name: string, op: Op)
    | UnknownType(name: string, member: string)
    | NotADict(name: string)

  /** What each error claims about the configuration. */
  ghost predicate Explains(cfg: Config, e: ConfigError) {
    match e
    case InvalidMode(n) => IsComposite(cfg, n) && cfg[n].mode == OtherMode
    case NoMembersIn(n) => IsComposite(cfg, n) && NamesOf(cfg, n) == []
    case UnknownMember(n, m) => IsComposite(cfg, n) && m in NamesOf(cfg, n) && m !in cfg
    case NestedComposite(n, m) => IsComposite(cfg, n) && m in NamesOf(cfg, n) && IsComposite(cfg, m)
    case SharedMember(m, a, b) =>
      && IsComposite(cfg, a) && IsComposite(cfg, b) && m in NamesOf(cfg, a) && m in NamesOf(cfg, b)
      && (a == b ==> !Distinct(NamesOf(cfg, a)))
    case DifferingTypes(n) =>
      && IsComposite(cfg, n) && cfg[n].mode == Mirror
      && exists a, b :: a in NamesOf(cfg, n) && b in NamesOf(cfg, n) && KindOf(cfg, a) != KindOf(cfg, b)
    case PrimaryMissing(n) => IsComposite(cfg, n) && cfg[n].mode == Mapped
        && (cfg[n].primary.Some? ==> cfg[n].primary.value == "")
    case PrimaryNotMember(n) =>
      IsComposite(cfg, n) && cfg[n].mode == Mapped && cfg[n].primary.Some? && cfg[n].primary.value !in NamesOf(cfg, n)
    case PartialGain(n, op) =>
      && IsComposite(cfg, n) && cfg[n].mode == Mapped && !cfg[n].allowPartialGain && cfg[n].members.DictOf?
          && op in BALANCE_OPS
      && exists a, b :: a in NamesOf(cfg, n) && b in NamesOf(cfg, n)
           && Supports(cfg, cfg[n].members.overrides, a, op) && !Supports(cfg, cfg[n].members.overrides, b, op)
    case UnknownType(n, m) =>
      && IsComposite(cfg, n) && cfg[n].mode == Mapped && !cfg[n].allowPartialGain
      && m in NamesOf(cfg, n) && KindOf(cfg, m).Unknown?
    case NotADict(n) =>
        IsComposite(cfg, n) && cfg[n].mode == Mapped && !cfg[n].allowPartialGain
        && !cfg[n].members.DictOf?
  }

  lemma {:induction false} DifferingIsWrong(cfg: Config, n: string)
    requires IsComposite(cfg, n) && Explains(cfg, DifferingTypes(n))
    ensures !ModeIsRight(cfg, n)
  {
    var names := NamesOf(cfg, n);
    var a, b :| a in names && b in names && KindOf(cfg, a) != KindOf(cfg, b);
    var i :| 0 <= i < |names| && names[i] == a;
    var j :| 0 <= j < |names| && names[j] == b;
    assert KindOf(cfg, names[i]) != KindOf(cfg, names[j]);
  }

  lemma {:induction false} PartialIsWrong(cfg: Config, n: string, op: Op)
    requires IsComposite(cfg, n) && Explains(cfg, PartialGain(n, op))
    ensures !ModeIsRight(cfg, n)
  {
    var names, overrides := NamesOf(cfg, n), cfg[n].members.overrides;
    var a, b :| a in names && b in names && Supports(cfg, overrides, a, op) && !Supports(cfg, overrides, b, op);
    var i :| 0 <= i < |names| && names[i] == a;
    var j :| 0 <= j < |names| && names[j] == b;
    assert !AllOrNone(cfg, names, overrides, op);
  }

  lemma {:induction false} SharedIsWrong(cfg: Config, m: string, a: string, b: string)
    requires Explains(cfg, SharedMember(m, a, b))
    ensures a == b ==> !MembersAreRight(cfg, a)
    ensures a != b ==> !NothingShared(cfg, a, b)
  {
  }

  /** The other faults are those of a single composite. */
  lemma {:induction false} FaultIsWrong(cfg: Config, e: ConfigError)
    requires Explains(cfg, e) && !e.SharedMember?
    ensures IsComposite(cfg, e.name) && (!MembersAreRight(cfg, e.name) || !ModeIsRight(cfg, e.name))
  {
    match e
    case DifferingTypes(n) => DifferingIsWrong(cfg, n);
    case PartialGain(n, op) => PartialIsWrong(cfg, n, op);
    case _ =>
  }

  lemma {:induction false} ExplainedIsWrong(cfg: Config, e: ConfigError)
    requires Explains(cfg, e)
    ensures !Acceptable(cfg)
  {
    match e
    case SharedMember(m, a, b) => SharedIsWrong(cfg, m, a, b);
    case _ => FaultIsWrong(cfg, e);
  }

  /** The names of a set that a sequence of distinct names holds. */
  lemma {:induction false} SizeOfDistinct(names: seq<string>)
    requires Distinct(names)
    ensures |set n | n in names| == |names|
  {
    if names != [] {
      var front, last := names[..|names| - 1], names[|names| - 1];
      SizeOfDistinct(front);
      assert (set n | n in names) == (set n | n in front) + {last};
      assert last !in front;
    }
  }

  lemma {:induction false} FewerMeansMissing(names: seq<string>, supporting: set<string>)
    requires Distinct(names) && forall n :: n in supporting ==> n in names
    ensures |supporting| < |names| <==> exists n :: n in names && n !in supporting
  {
    SizeOfDistinct(names);
    var all := set n | n in names;
    if forall n :: n in names ==> n in supporting {
      assert supporting == all;
    } else {
      Smaller(supporting, all);
    }
  }

  lemma {:induction false} Smaller(a: set<string>, b: set<string>)
    requires a < b
    ensures |a| < |b|
  {
    assert |b - a| + |a| == |b|;
    assert b - a != {};
  }

  method ValidateNoSilentPartialGain(cfg: Config, n: string, names: seq<string>) returns (r: Option<ConfigError>)
    requires IsComposite(cfg, n) && cfg[n].mode == Mapped && names == NamesOf(cfg, n) && Distinct(names)
    ensures r.None? ==> NoPartialGain(cfg, cfg[n])
    ensures r.Some? ==> Explains(cfg, r.value)
  {
    if cfg[n].allowPartialGain { return None; }
    if !cfg[n].members.DictOf? { return Some(NotADict(n)); }
    var overrides := cfg[n].members.overrides;
    var effectiveSupport: map<string, set<Op>> := map[];
    for i := 0 to |names|
      invariant forall k :: 0 <= k < i ==> KindOf(cfg, names[k]).Known?
      invariant forall k :: 0 <= k < i ==> names[k] in effectiveSupport
      invariant forall k :: 0 <= k < i ==>
          effectiveSupport[names[k]] ==
          Effective(KindOf(cfg, names[k]).t, overrides, names[k])
    {
      var m := names[i];
      var kind := KindOf(cfg, m);
      if kind.Unknown? { return Some(UnknownType(n, m)); }
      var explicitSkip: set<Op> := if m in overrides then overrides[m].skipOps else {};
      effectiveSupport := effectiveSupport[m := SupportedOps(kind.t) - explicitSkip];
    }
    for k := 0 to |BALANCE_OPS|
      invariant forall j :: 0 <= j < k ==> AllOrNone(cfg, names, overrides, BALANCE_OPS[j])
    {
      var op := BALANCE_OPS[k];
      var supporting := set m | m in names && op in effectiveSupport[m];
      assert forall m :: m in names ==> (m in supporting <==> Supports(cfg, overrides, m, op));
      FewerMeansMissing(names, supporting);
      if supporting != {} && |supporting| < |names| {
        ghost var a :| a in supporting;
        ghost var b :| b in names && b !in supporting;
        assert Supports(cfg, overrides, a, op) && !Supports(cfg, overrides, b, op);
        return Some(PartialGain(n, op));
      }
    }
    return None;
  }

  /** Composites come from a set, so in any order. */
  ghost predicate Enumerates(order: seq<string>, cfg: Config) {
    Distinct(order) && forall n :: n in order <==> IsComposite(cfg, n)
  }

  /** Who is known to be a member of which of the composites seen so far. */
  ghost predicate SeenSoFar(cfg: Config, order: seq<string>, seen: map<string, string>) {
    && (forall m :: m in seen ==> seen[m] in order && IsComposite(cfg, seen[m]) && m in NamesOf(cfg, seen[m]))
    && (forall n, m :: n in order && IsComposite(cfg, n) && m in NamesOf(cfg, n) ==> m in seen)
  }

  /** The composites seen so far are right, and none shares a member with another. */
  ghost predicate RightSoFar(cfg: Config, order: seq<string>) {
    && (forall n :: n in order ==> IsComposite(cfg, n) && MembersAreRight(cfg, n) && ModeIsRight(cfg, n))
    && (forall a, b :: a in order && b in order && a != b && IsComposite(cfg, a) && IsComposite(cfg, b) ==>
        NothingShared(cfg, a, b))
  }

  lemma {:induction false} OneMoreRight(
      cfg: Config, order: seq<string>, n: string, seen: map<string, string>, more: map<string, string>)
    requires SeenSoFar(cfg, order, seen) && RightSoFar(cfg, order) && n !in order
    requires IsComposite(cfg, n) && MembersAreRight(cfg, n) && ModeIsRight(cfg, n)
        && Adds(seen, NamesOf(cfg, n), n, more)
    ensures SeenSoFar(cfg, order + [n], more) && RightSoFar(cfg, order + [n])
  {
    forall a | a in order
      ensures NothingShared(cfg, a, n) && NothingShared(cfg, n, a)
    {
      assert forall m :: m in NamesOf(cfg, a) ==> m in seen;
    }
  }

  /** `more` adds a composite's members to those seen before. */
  ghost predicate Adds(seen: map<string, string>, names: seq<string>, n: string, more: map<string, string>) {
    && (forall m :: m in seen ==> m in more && more[m] == seen[m])
    && (forall m :: m in names ==> m in more && m !in seen && more[m] == n)
    && (forall m :: m in more ==> m in seen || m in names)
  }

  lemma {:induction false} AddOne(
      seen: map<string, string>, names: seq<string>, n: string, more: map<string, string>, m: string)
    requires Adds(seen, names, n, more) && m !in more
    ensures Adds(seen, names + [m], n, more[m := n])
  {
  }

  method CheckMembers(
      cfg: Config, n: string, seenAsMember: map<string, string>) returns (r: Result<map<string, string>, ConfigError>)
    requires IsComposite(cfg, n)
    requires forall m :: m in seenAsMember ==>
        IsComposite(cfg, seenAsMember[m]) && seenAsMember[m] != n
        && m in NamesOf(cfg, seenAsMember[m])
    ensures r.Ok? ==> Adds(seenAsMember, NamesOf(cfg, n), n, r.value) && MembersAreRight(cfg, n)
    ensures r.Err? ==> Explains(cfg, r.error)
  {
    var names := NamesOf(cfg, n);
    if names == [] { return Err(NoMembersIn(n)); }
    var seen := seenAsMember;
    for i := 0 to |names|
      invariant Adds(seenAsMember, names[..i], n, seen)
      invariant Distinct(names[..i])
      invariant forall k :: 0 <= k < i ==> names[k] in cfg && !IsComposite(cfg, names[k])
    {
      var m := names[i];
      if m !in cfg { return Err(UnknownMember(n, m)); }
      if IsComposite(cfg, m) { return Err(NestedComposite(n, m)); }
      if m in seen {
        if m !in seenAsMember {
          ghost var k :| 0 <= k < i && names[k] == m;
          assert names[k] == names[i];
        }
        return Err(SharedMember(m, seen[m], n));
      }
      AddOne(seenAsMember, names[..i], n, seen, m);
      assert names[..i + 1] == names[..i] + [m];
      seen := seen[m := n];
    }
    assert names[..|names|] == names;
    return Ok(seen);
  }

  method CheckMode(cfg: Config, n: string) returns (r: Option<ConfigError>)
    requires IsComposite(cfg, n) && MembersAreRight(cfg, n) && cfg[n].mode != OtherMode
    ensures r.None? ==> ModeIsRight(cfg, n)
    ensures r.Some? ==> Explains(cfg, r.value)
  {
    var v, names := cfg[n], NamesOf(cfg, n);
    if v.mode == Mirror {
      var types := set m | m in names :: KindOf(cfg, m);
      if |types| > 1 {
        TwoOf(types);
        return Some(DifferingTypes(n));
      }
      forall i, j | 0 <= i < j < |names|
        ensures KindOf(cfg, names[i]) == KindOf(cfg, names[j])
      {
        OneOf(types, KindOf(cfg, names[i]), KindOf(cfg, names[j]));
      }
      return None;
    }
    if v.primary.None? || v.primary.value == "" { return Some(PrimaryMissing(n)); }
    if v.primary.value !in names { return Some(PrimaryNotMember(n)); }
    r := ValidateNoSilentPartialGain(cfg, n, names);
  }

  lemma {:induction false} TwoOf<T>(s: set<T>)
    requires |s| > 1
    ensures exists a, b :: a in s && b in s && a != b
  {
    var a :| a in s;
    assert s - {a} != {} by { assert s == {a} + (s - {a}); }
    var b :| b in s - {a};
  }

  lemma {:induction false} OneOf<T>(s: set<T>, a: T, b: T)
    requires |s| <= 1 && a in s && b in s
    ensures a == b
  {
    if a != b { Pair(s, a, b); }
  }

  lemma {:induction false} Pair<T>(s: set<T>, a: T, b: T)
    requires a in s && b in s && a != b
    ensures |s| >= 2
  {
    assert s == {a, b} + (s - {a, b});
  }

  /** Whatever order the composites are visited in, the check passes exactly the acceptable configurations, and what it
      reports of any other is true of it. */
  method ValidateCompositeConfigs(cfg: Config, order: seq<string>) returns (r: Result<(), ConfigError>)
    requires Enumerates(order, cfg)
    ensures r.Ok? <==> Acceptable(cfg)
    ensures r.Err? ==> Explains(cfg, r.error)
  {
    r := VisitComposites(cfg, order);
    if r.Err? { ExplainedIsWrong(cfg, r.error); }
  }

  method VisitComposites(cfg: Config, order: seq<string>) returns (r: Result<(), ConfigError>)
    requires Enumerates(order, cfg)
    ensures r.Ok? ==> Acceptable(cfg)
    ensures r.Err? ==> Explains(cfg, r.error)
  {
    var seen: map<string, string> := map[];
    for i := 0 to |order|
      invariant SeenSoFar(cfg, order[..i], seen) && RightSoFar(cfg, order[..i])
    {
      var n := order[i];
      assert n in order && n !in order[..i];
      if cfg[n].mode == OtherMode { return Err(InvalidMode(n)); }
      var members := CheckMembers(cfg, n, seen);
      if members.Err? { return Err(members.error); }
      var mode := CheckMode(cfg, n);
      if mode.Some? { return Err(mode.value); }
      OneMoreRight(cfg, order[..i], n, seen, members.value);
      assert order[..i + 1] == order[..i] + [n];
      seen := members.value;
    }
    assert order[..|order|] == order;
    return Ok(());
  }
}
