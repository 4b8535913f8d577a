/** The load-time checks of roles and fallback chains (internal/config/config.go): each method reports
    exactly the faults there are. */
module Validation {
  import opened RequestDefaults
  import opened Registries
  import Sorting

  datatype Fault =
    | NameTaken | AliasTaken(id: string)
    | OverflowUnwanted | OverflowMissing | BadOnEmpty | BadLocality | BadClass | NoCandidates
    | UnknownMember(over: bool, id: string)
    | NeverAdopted(over: bool, id: string)
    | NotLocal(over: bool, id: string)
    | NotZdr(over: bool, id: string)
    | Lacks(over: bool, id: string, capability: string)
    | WrongClass(over: bool, id: string)
    | BadBalance | GroupOutsider(id: string) | GroupedTwice(id: string)

  datatype ChainFault =
    | NamesItself
    | UnknownFallback(id: string)
    | Nested(id: string)
    | OtherClass(id: string)

  const API_CLASSES := {"chat", "embeddings", "rerank", "image_gen", "image_edit", "tts", "stt", "music_gen", "anthropic"}

  // ----- chains -------------------------------------------------------------------------

  predicate ChainFaulty(r: Registry, id: string, m: ModelDef, f: ChainFault) {
    exists k :: 0 <= k < |m.fallbacks| && LinkFaulty(r, id, m, m.fallbacks[k], f)
  }

  /** What can be wrong with one link of the chain. */
  predicate LinkFaulty(r: Registry, id: string, m: ModelDef, fid: string, f: ChainFault) {
    match f
    case NamesItself => fid == id
    case UnknownFallback(x) => x == fid && fid != id && fid !in r.models
    case Nested(x) => x == fid && fid != id && fid in r.models && r.models[fid].fallbacks != []
    case OtherClass(x) => x == fid && fid != id && fid in r.models && r.models[fid].apiClass != m.apiClass
  }

  method ValidateFallbacks(r: Registry, id: string, m: ModelDef) returns (errs: seq<ChainFault>)
    ensures forall f :: f in errs <==> ChainFaulty(r, id, m, f)
  {
    errs := [];
    for i := 0 to |m.fallbacks|
      invariant forall f :: f in errs <==> exists k :: 0 <= k < i && LinkFaulty(r, id, m, m.fallbacks[k], f)
    {
      var fid := m.fallbacks[i];
      var more: seq<ChainFault> := [];
      if fid == id {
        more := [NamesItself];
      } else if fid !in r.models {
        more := [UnknownFallback(fid)];
      } else {
        more := (if r.models[fid].fallbacks != [] then [Nested(fid)] else []) +
                if r.models[fid].apiClass != m.apiClass then [OtherClass(fid)] else [];
      }
      assert forall f :: f in more <==> LinkFaulty(r, id, m, fid, f);
      errs := errs + more;
    }
  }

  // ----- role members -------------------------------------------------------------------

  predicate Compliant(m: ModelDef) {
    IsLocal(m) || ZdrEnforceable(m)
  }

  /** A chain is only as private as its worst member. */
  predicate Tolerable(r: Registry, m: ModelDef) {
    || Compliant(m)
    || (IsVirtual(m) && forall x | x in m.fallbacks :: x in r.models && Compliant(r.models[x]))
  }

  method ZdrTolerable(r: Registry, m: ModelDef) returns (ok: bool)
    ensures ok <==> Tolerable(r, m)
  {
    if IsLocal(m) || ZdrEnforceable(m) {
      return true;
    }
    if !IsVirtual(m) {
      return false;
    }
    for i := 0 to |m.fallbacks|
      invariant forall x | x in m.fallbacks[..i] :: x in r.models && Compliant(r.models[x])
    {
      var fid := m.fallbacks[i];
      assert fid in m.fallbacks;
      if fid !in r.models {
        return false;
      }
      if !IsLocal(r.models[fid]) && !ZdrEnforceable(r.models[fid]) {
        return false;
      }
    }
    return true;
  }

  /** Whether a role's locality governs its overflow list too. */
  predicate BindsOverflow(l: Locality) {
    l.LocalOrZdr?
  }

  /** Whether the locality is demanded of a member of the candidate list, or of the overflow list. */
  predicate Enforced(role: Role, over: bool) {
    !over || BindsOverflow(role.locality)
  }

  /** What can be wrong with a member whose entry is known. */
  predicate EntryFaulty(r: Registry, role: Role, over: bool, enforced: bool, id: string, m: ModelDef, discovered: bool, f: Fault) {
    match f
    case NotLocal(o, x) => o == over && x == id && enforced && role.locality.LocalOnly? && !IsLocal(m)
    case NotZdr(o, x) => o == over && x == id && enforced && role.locality.LocalOrZdr? && !Tolerable(r, m)
    case Lacks(o, x, c) => o == over && x == id && !discovered && c in role.capabilities && c !in m.capabilities
    case WrongClass(o, x) => o == over && x == id && role.apiClass != "" && m.apiClass != role.apiClass
    case _ => false
  }

  /** What holds of everything a source adopts, whatever its listing says. */
  function Promise(s: Source, pid: string): ModelDef {
    Entry(s, Listed(pid, 0, false, false, false))
  }

  function ProviderId(r: Registry, i: nat, id: string): string
    requires i < |r.discovery| && Under(r, i, id)
  {
    id[|r.discovery[i].prefix|..]
  }

  ghost predicate MemberFaulty(r: Registry, role: Role, over: bool, enforced: bool, id: string, f: Fault) {
    if id in r.models then EntryFaulty(r, role, over, enforced, id, r.models[id], false, f)
    else if !IsMember(r, id) then f == UnknownMember(over, id)
    else exists i: nat :: i < |r.discovery| && Names(r, i, id) && DiscoveredFaulty(r, role, over, enforced, id, i, f)
  }

  ghost predicate DiscoveredFaulty(r: Registry, role: Role, over: bool, enforced: bool, id: string, i: nat, f: Fault)
    requires i < |r.discovery| && Under(r, i, id)
  {
    var pid := ProviderId(r, i, id);
    if !Adopts(r, r.discovery[i], pid) then f == NeverAdopted(over, id)
    else EntryFaulty(r, role, over, enforced, id, Promise(r.discovery[i], pid), true, f)
  }

  method EntryErrs(r: Registry, role: Role, over: bool, enforced: bool, id: string, m: ModelDef, discovered: bool)
    returns (errs: seq<Fault>)
    ensures forall f :: f in errs <==> EntryFaulty(r, role, over, enforced, id, m, discovered, f)
  {
    errs := [];
    if enforced {
      if role.locality.LocalOnly? && !IsLocal(m) {
        errs := [NotLocal(over, id)];
      } else if role.locality.LocalOrZdr? {
        var ok := ZdrTolerable(r, m);
        if !ok {
          errs := [NotZdr(over, id)];
        }
      }
    }
    ghost var first := errs;
    for i := 0 to |role.capabilities|
      invariant forall f :: f in errs <==> f in first || EntryFaulty(r, role.(locality := OtherLocality, apiClass := "", capabilities := role.capabilities[..i]), over, enforced, id, m, discovered, f)
    {
      var want := role.capabilities[i];
      assert role.capabilities[..i + 1] == role.capabilities[..i] + [want];
      if !discovered && want !in m.capabilities {
        errs := errs + [Lacks(over, id, want)];
      }
    }
    assert role.capabilities[..|role.capabilities|] == role.capabilities;
    if role.apiClass != "" && m.apiClass != role.apiClass {
      errs := errs + [WrongClass(over, id)];
    }
  }

  method RoleMemberErrs(r: Registry, role: Role, over: bool, enforced: bool, id: string) returns (errs: seq<Fault>)
    ensures forall f :: f in errs <==> MemberFaulty(r, role, over, enforced, id, f)
  {
    if id in r.models {
      errs := EntryErrs(r, role, over, enforced, id, r.models[id], false);
      return;
    }
    var found := DiscoveredMember(r, id);
    if found.None? {
      return [UnknownMember(over, id)];
    }
    var (i, pid) := found.value;
    assert pid == ProviderId(r, i, id);
    OneSource(r, role, over, enforced, id, i);
    if !Adopts(r, r.discovery[i], pid) {
      return [NeverAdopted(over, id)];
    }
    errs := EntryErrs(r, role, over, enforced, id, Promise(r.discovery[i], pid), true);
  }

  lemma OneSource(r: Registry, role: Role, over: bool, enforced: bool, id: string, i: nat)
    requires i < |r.discovery| && Names(r, i, id) && id !in r.models
    ensures forall f :: MemberFaulty(r, role, over, enforced, id, f) <==> DiscoveredFaulty(r, role, over, enforced, id, i, f)
  {
    forall j: nat | j < |r.discovery| && Names(r, j, id)
      ensures i == j
    {
      NamesIsUnique(r, i, j, id);
    }
  }

  // ----- roles --------------------------------------------------------------------------

  function Flat(groups: seq<seq<string>>): seq<string> {
    if groups == [] then [] else Flat(groups[..|groups| - 1]) + groups[|groups| - 1]
  }

  predicate Twice(ids: seq<string>, id: string) {
    exists a, b :: 0 <= a < b < |ids| && ids[a] == id && ids[b] == id
  }

  ghost predicate Faulty(r: Registry, name: string, role: Role, f: Fault) {
    match f
    case NameTaken => name in r.models
    case AliasTaken(id) => id in r.models && name in r.models[id].aliases
    case GroupOutsider(id) => id in Flat(role.balanceGroups) && id !in role.candidates
    case GroupedTwice(id) => Twice(Flat(role.balanceGroups), id)
    case _ => if OfMember(f) then MembersFaulty(r, role, f) else SettingFaulty(role, f)
  }

  ghost predicate MembersFaulty(r: Registry, role: Role, f: Fault) {
    || (exists id :: id in role.candidates && MemberFaulty(r, role, false, Enforced(role, false), id, f))
    || (exists id :: id in role.overflow && MemberFaulty(r, role, true, Enforced(role, true), id, f))
  }

  /** The shape of a fault found on a member, as opposed to one of the role itself. */
  predicate OfMember(f: Fault) {
    f.UnknownMember? || f.NeverAdopted? || f.NotLocal? || f.NotZdr? || f.Lacks? || f.WrongClass?
  }

  method ListErrs(r: Registry, role: Role, over: bool, enforced: bool, ids: seq<string>) returns (errs: seq<Fault>)
    ensures forall f :: f in errs <==> exists id :: id in ids && MemberFaulty(r, role, over, enforced, id, f)
    ensures forall f | f in errs :: OfMember(f)
  {
    hide EntryFaulty, Names, Adopts;
    errs := [];
    for i := 0 to |ids|
      invariant forall f :: f in errs <==> exists id :: id in ids[..i] && MemberFaulty(r, role, over, enforced, id, f)
    {
      assert ids[..i + 1] == ids[..i] + [ids[i]];
      var more := RoleMemberErrs(r, role, over, enforced, ids[i]);
      errs := errs + more;
    }
    assert ids[..|ids|] == ids;
    forall f | f in errs
      ensures OfMember(f)
    {
      var id :| id in ids && MemberFaulty(r, role, over, enforced, id, f);
      MemberShape(r, role, over, enforced, id, f);
    }
  }

  lemma MemberShape(r: Registry, role: Role, over: bool, enforced: bool, id: string, f: Fault)
    ensures MemberFaulty(r, role, over, enforced, id, f) ==> OfMember(f)
  {
  }

  method AliasErrs(r: Registry, name: string) returns (errs: seq<Fault>)
    ensures forall f :: f in errs <==> f.AliasTaken? && f.id in r.models && name in r.models[f.id].aliases
  {
    errs := [];
    var todo := r.models.Keys;
    while todo != {}
      invariant todo <= r.models.Keys
      invariant forall f :: f in errs <==> f.AliasTaken? && f.id in r.models && f.id !in todo && name in r.models[f.id].aliases
      decreases todo
    {
      var id := Sorting.Pick(todo);
      if name in r.models[id].aliases {
        errs := errs + [AliasTaken(id)];
      }
      todo := todo - {id};
    }
  }

  method GroupErrs(role: Role) returns (errs: seq<Fault>)
    ensures forall f :: f in errs <==>
              || (f.GroupOutsider? && f.id in Flat(role.balanceGroups) && f.id !in role.candidates)
              || (f.GroupedTwice? && Twice(Flat(role.balanceGroups), f.id))
  {
    errs := [];
    ghost var passed: seq<string> := [];
    var seen: set<string> := {};
    for g := 0 to |role.balanceGroups|
      invariant passed == Flat(role.balanceGroups[..g])
      invariant Grouped(role, passed, seen, errs)
    {
      var group := role.balanceGroups[g];
      assert role.balanceGroups[..g + 1][..g] == role.balanceGroups[..g];
      ghost var before := passed;
      for i := 0 to |group|
        invariant passed == before + group[..i]
        invariant Grouped(role, passed, seen, errs)
      {
        var id := group[i];
        assert group[..i + 1] == group[..i] + [id];
        GroupedOneMore(role, passed, seen, errs, id);
        if id !in role.candidates {
          errs := errs + [GroupOutsider(id)];
        }
        if id in seen {
          errs := errs + [GroupedTwice(id)];
        }
        seen := seen + {id};
        passed := passed + [id];
      }
      assert group[..|group|] == group;
    }
    assert role.balanceGroups[..|role.balanceGroups|] == role.balanceGroups;
  }

  ghost predicate Grouped(role: Role, passed: seq<string>, seen: set<string>, errs: seq<Fault>) {
    && (forall id :: id in seen <==> id in passed)
    && forall f :: f in errs <==>
         || (f.GroupOutsider? && f.id in passed && f.id !in role.candidates)
         || (f.GroupedTwice? && Twice(passed, f.id))
  }

  lemma GroupedOneMore(role: Role, passed: seq<string>, seen: set<string>, errs: seq<Fault>, id: string)
    requires Grouped(role, passed, seen, errs)
    ensures Grouped(role, passed + [id], seen + {id},
                    errs + (if id !in role.candidates then [GroupOutsider(id)] else []) + if id in seen then [GroupedTwice(id)] else [])
  {
    var more := passed + [id];
    forall x
      ensures Twice(more, x) <==> Twice(passed, x) || (x == id && id in passed)
    {
      if Twice(more, x) && !Twice(passed, x) {
        var a, b :| 0 <= a < b < |more| && more[a] == x && more[b] == x;
        assert b == |passed| && passed[a] == x;
      }
      if Twice(passed, x) {
        var a, b :| 0 <= a < b < |passed| && passed[a] == x && passed[b] == x;
        assert more[a] == x && more[b] == x;
      }
      if x == id && id in passed {
        var a :| 0 <= a < |passed| && passed[a] == id;
        assert more[a] == id && more[|passed|] == id;
      }
    }
  }

  /** The settings of a role that can be wrong by themselves. */
  predicate SettingFaulty(role: Role, f: Fault) {
    match f
    case OverflowUnwanted => role.onEmpty.ErrorOut? && role.overflow != []
    case OverflowMissing => role.onEmpty.OverflowTo? && role.overflow == []
    case BadOnEmpty => role.onEmpty.OtherOnEmpty?
    case BadLocality => role.locality.OtherLocality?
    case BadClass => role.apiClass != "" && role.apiClass !in API_CLASSES
    case NoCandidates => role.candidates == []
    case BadBalance => role.balance.OtherBalance?
    case _ => false
  }

  method SettingErrs(role: Role) returns (errs: seq<Fault>)
    ensures forall f :: f in errs <==> SettingFaulty(role, f)
  {
    errs := match role.onEmpty
            case ErrorOut => if role.overflow != [] then [OverflowUnwanted] else []
            case OverflowTo => if role.overflow == [] then [OverflowMissing] else []
            case OtherOnEmpty => [BadOnEmpty];
    if role.locality.OtherLocality? {
      errs := errs + [BadLocality];
    }
    if role.apiClass != "" && role.apiClass !in API_CLASSES {
      errs := errs + [BadClass];
    }
    if role.candidates == [] {
      errs := errs + [NoCandidates];
    }
    if role.balance.OtherBalance? {
      errs := errs + [BadBalance];
    }
  }

  /** Exactly the faults of a role are reported, so an empty report is the whole contract. */
  method ValidateRole(r: Registry, name: string, role: Role) returns (errs: seq<Fault>)
    ensures forall f :: f in errs <==> Faulty(r, name, role, f)
  {
    hide MemberFaulty, Twice, Flat, SettingFaulty;
    errs := if name in r.models then [NameTaken] else [];
    var aliases := AliasErrs(r, name);
    var settings := SettingErrs(role);
    var candidates := ListErrs(r, role, false, true, role.candidates);
    var overflow := ListErrs(r, role, true, BindsOverflow(role.locality), role.overflow);
    var groups := GroupErrs(role);
    SettingsApart(role);
    errs := errs + aliases + settings + candidates + overflow + groups;
  }

  lemma SettingsApart(role: Role)
    ensures forall f | SettingFaulty(role, f) ::
              !OfMember(f) && !f.NameTaken? && !f.AliasTaken? && !f.GroupOutsider? && !f.GroupedTwice?
  {
  }
}
