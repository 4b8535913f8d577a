/** What the load-time checks buy at run time (internal/config/config.go against internal/router/roles.go
    and resolve.go): every seat a role or a chain can ever reach keeps the promised endpoint family, and
    where the locality promise falls short. */
module Soundness {
  import opened RequestDefaults
  import opened Registries
  import opened Candidates
  import opened Validation
  import opened Resolution
  import Inventories

  /** No check reports anything. */
  ghost predicate Validated(r: Registry) {
    && (forall name | name in r.roles :: RoleOk(r, name, r.roles[name]))
    && (forall id | id in r.models :: ChainOk(r, id, r.models[id]))
  }

  ghost predicate RoleOk(r: Registry, name: string, role: Role) {
    forall f :: !Faulty(r, name, role, f)
  }

  ghost predicate ChainOk(r: Registry, id: string, m: ModelDef) {
    forall f :: !ChainFaulty(r, id, m, f)
  }

  /** The names discovery must not touch. */
  predicate Reserved(r: Registry, name: string) {
    Inventories.ReservedName(r, name)
  }

  /** A catalog the router can have: the entries of a mode, and discovered entries that carry no reserved
      name and are what their source makes of a listing. */
  ghost predicate Possible(r: Registry, mode: string, cat: Catalog) {
    && cat.active == ActiveModels(r, mode)
    && forall id | id in cat.discovered :: !Reserved(r, id) && Adopted(r, id, cat.discovered[id])
  }

  ghost predicate Adopted(r: Registry, id: string, m: ModelDef) {
    exists i: nat, lm: Listed :: i < |r.discovery| && AdoptedFrom(r, i, lm, id, m)
  }

  ghost predicate AdoptedFrom(r: Registry, i: nat, lm: Listed, id: string, m: ModelDef)
    requires i < |r.discovery|
  {
    id == r.discovery[i].prefix + lm.id && Under(r, i, id) && Adopts(r, r.discovery[i], lm.id) && m == Entry(r.discovery[i], lm)
  }

  /** What the live inventory has adopted always makes a catalog the router can have, since load time asks
      for non-empty prefixes. */
  lemma InventoryIsPossible(r: Registry, mode: string, t: Inventories.Tables, found: map<string, Inventories.Found>, cat: Catalog)
    requires |r.discovery| == |t.source| && Inventories.Safe(r, t, found) && Inventories.AllSourced(r, found)
    requires forall i | 0 <= i < |r.discovery| :: r.discovery[i].prefix != ""
    requires cat == Catalog(ActiveModels(r, mode), map id | id in found :: found[id].def)
    ensures Possible(r, mode, cat)
  {
    hide ActiveModels, Reserved, Adopted;
    forall id | id in cat.discovered
      ensures !Reserved(r, id) && Adopted(r, id, cat.discovered[id])
    {
      FoundIsAdopted(r, t, found, id);
    }
  }

  lemma FoundIsAdopted(r: Registry, t: Inventories.Tables, found: map<string, Inventories.Found>, id: string)
    requires |r.discovery| == |t.source| && Inventories.Safe(r, t, found) && Inventories.AllSourced(r, found)
    requires (forall i | 0 <= i < |r.discovery| :: r.discovery[i].prefix != "") && id in found
    ensures !Reserved(r, id) && Adopted(r, id, found[id].def)
  {
    hide Entry, Adopts;
    assert Inventories.SafeAt(r, t, id, found[id]);
    assert Inventories.Sourced(r, id, found[id].def);
    var i: nat, lm :| i < |r.discovery| && Inventories.MadeBy(r, i, lm, id, found[id].def);
    assert AdoptedFrom(r, i, lm, id, found[id].def);
  }

  ghost predicate Faultless(r: Registry, role: Role, over: bool, enforced: bool, id: string) {
    forall f :: !MemberFaulty(r, role, over, enforced, id, f)
  }

  // ----- endpoint families --------------------------------------------------------------

  lemma DiscoveredIsChat(r: Registry, mode: string, cat: Catalog, id: string)
    requires Possible(r, mode, cat) && id in cat.discovered
    ensures cat.discovered[id].apiClass == CHAT && cat.discovered[id].fallbacks == [] && id !in r.models
  {
    hide Names;
    assert Adopted(r, id, cat.discovered[id]);
    assert !Reserved(r, id);
  }

  /** A member of a validated role, looked up at run time, is what load time vouched for. */
  lemma MemberClass(r: Registry, mode: string, cat: Catalog, role: Role, over: bool, enforced: bool, id: string)
    requires Possible(r, mode, cat) && role.apiClass != "" && Lookup(cat, id).Some?
    requires Faultless(r, role, over, enforced, id)
    ensures Lookup(cat, id).value.apiClass == role.apiClass
  {
    if id in cat.active {
      assert !MemberFaulty(r, role, over, enforced, id, WrongClass(over, id));
    } else {
      DiscoveredIsChat(r, mode, cat, id);
      assert Adopted(r, id, cat.discovered[id]);
      NamesExists(r, id);
      var i: nat :| i < |r.discovery| && Names(r, i, id);
      PromiseHolds(r, role, over, enforced, id, i);
      assert !EntryFaulty(r, role, over, enforced, id, Promise(r.discovery[i], ProviderId(r, i, id)), true, WrongClass(over, id));
      PromisedIsChat(r.discovery[i], ProviderId(r, i, id));
    }
  }

  /** A discovered member without faults is one its source would adopt, and its promise is without faults. */
  lemma PromiseHolds(r: Registry, role: Role, over: bool, enforced: bool, id: string, i: nat)
    requires i < |r.discovery| && Names(r, i, id) && id !in r.models
    requires Faultless(r, role, over, enforced, id)
    ensures forall f :: !EntryFaulty(r, role, over, enforced, id, Promise(r.discovery[i], ProviderId(r, i, id)), true, f)
  {
    OneSource(r, role, over, enforced, id, i);
    hide MemberFaulty, Adopts, EntryFaulty;
    assert !DiscoveredFaulty(r, role, over, enforced, id, i, NeverAdopted(over, id));
    forall f
      ensures !EntryFaulty(r, role, over, enforced, id, Promise(r.discovery[i], ProviderId(r, i, id)), true, f)
    {
      assert !DiscoveredFaulty(r, role, over, enforced, id, i, f);
    }
  }

  lemma PromisedIsChat(s: Source, pid: string)
    ensures Promise(s, pid).apiClass == CHAT
  {
  }

  /** The links of a validated chain share its class, and are in the registry. */
  lemma LinkClass(r: Registry, id: string, fid: string)
    requires id in r.models && ChainOk(r, id, r.models[id]) && fid in r.models[id].fallbacks
    ensures fid != id && fid in r.models && r.models[fid].fallbacks == [] && r.models[fid].apiClass == r.models[id].apiClass
  {
    var m := r.models[id];
    var k :| 0 <= k < |m.fallbacks| && m.fallbacks[k] == fid;
    assert !ChainFaulty(r, id, m, NamesItself);
    assert !ChainFaulty(r, id, m, UnknownFallback(fid));
    assert !ChainFaulty(r, id, m, Nested(fid));
    assert !ChainFaulty(r, id, m, OtherClass(fid));
    assert !LinkFaulty(r, id, m, fid, NamesItself);
    assert !LinkFaulty(r, id, m, fid, UnknownFallback(fid));
    assert !LinkFaulty(r, id, m, fid, Nested(fid));
    assert !LinkFaulty(r, id, m, fid, OtherClass(fid));
  }

  /** Every seat of a role with a required class: candidates, overflow, chain providers, discovered
      members. Whatever is up, however often a request fails over, and whatever discovery has adopted or
      dropped since the order was drawn up, it stays within the class. */
  lemma RoleKeepsClass(r: Registry, mode: string, name: string, cat: Catalog, now: Catalog, c: Candidate)
    requires Validated(r) && Possible(r, mode, cat) && Possible(r, mode, now) && name in RolesSeen(r, mode)
    requires RolesSeen(r, mode)[name].apiClass != ""
    requires c in Reach(cat, RolesSeen(r, mode)[name]) && Lookup(now, c.id).Some?
    ensures Lookup(now, c.id).value.apiClass == RolesSeen(r, mode)[name].apiClass
  {
    var (role, seen) := (r.roles[name], RolesSeen(r, mode)[name]);
    ExpandedMembers(cat, RoleList(seen), c);
    var b :| b in RoleList(seen) && c in Expansion(cat, b);
    DeclaredMember(r, mode, role, seen, b);
    assert RoleOk(r, name, role);
    MemberOk(r, name, role, b);
    hide RoleList, Expanded, RolesSeen, Faulty, Faultless, Expansion;
    ExpansionClass(r, mode, cat, now, role, b, c);
  }

  /** What a mode keeps of a role was declared in it. */
  lemma DeclaredMember(r: Registry, mode: string, role: Role, seen: Role, b: Candidate)
    requires seen == RoleSeen(r, mode, role) && b in RoleList(seen)
    ensures seen.apiClass == role.apiClass
    ensures if b.overflow then b.id in role.overflow else b.id in role.candidates
    ensures Kept(r, mode, b.id)
  {
    SurvivorsAre(r, mode, role.candidates);
    SurvivorsAre(r, mode, role.overflow);
    hide Survivors, Kept;
    PlainMember(seen.candidates, false, b);
    PlainMember(seen.overflow, true, b);
  }

  lemma PlainMember(ids: seq<string>, over: bool, b: Candidate)
    ensures b in Plain(ids, over) ==> b.id in ids && b.overflow == over
  {
  }

  lemma MemberOk(r: Registry, name: string, role: Role, b: Candidate)
    requires RoleOk(r, name, role)
    requires if b.overflow then b.id in role.overflow else b.id in role.candidates
    ensures Faultless(r, role, b.overflow, Enforced(role, b.overflow), b.id)
  {
    var enforced := Enforced(role, b.overflow);
    forall f
      ensures !MemberFaulty(r, role, b.overflow, enforced, b.id, f)
    {
      MemberShape(r, role, b.overflow, enforced, b.id, f);
      hide MemberFaulty;
      assert !Faulty(r, name, role, f);
    }
  }

  lemma ExpansionClass(r: Registry, mode: string, cat: Catalog, now: Catalog, role: Role, b: Candidate, c: Candidate)
    requires Validated(r) && Possible(r, mode, cat) && Possible(r, mode, now) && role.apiClass != ""
    requires Faultless(r, role, b.overflow, Enforced(role, b.overflow), b.id)
    requires c in Expansion(cat, b) && Lookup(now, c.id).Some?
    ensures Lookup(now, c.id).value.apiClass == role.apiClass
  {
    hide Faultless, Enforced;
    if c.id == b.id {
      MemberClass(r, mode, now, role, b.overflow, Enforced(role, b.overflow), b.id);
    } else {
      var m := Lookup(cat, b.id).value;
      MemberClass(r, mode, cat, role, b.overflow, Enforced(role, b.overflow), b.id);
      LinksMembers(m.fallbacks, b, c);
      hide Links;
      if b.id in cat.active {
        LinkClass(r, b.id, c.id);
        if c.id !in now.active {
          DiscoveredIsChat(r, mode, now, c.id);
        }
      } else {
        DiscoveredIsChat(r, mode, cat, b.id);
      }
    }
  }

  // ----- locality -----------------------------------------------------------------------

  /** What a locality asks of a seat. */
  predicate Keeps(l: Locality, m: ModelDef) {
    if l.LocalOnly? then IsLocal(m) else Compliant(m)
  }

  /** The locality governs this entry: the overflow list only if it is a retention tolerance. */
  predicate Bound(l: Locality, c: Candidate) {
    !c.overflow || l.LocalOrZdr?
  }

  predicate AllKeep(l: Locality, cat: Catalog, order: seq<Candidate>) {
    forall c | c in order && Bound(l, c) && Lookup(cat, c.id).Some? :: Keeps(l, Lookup(cat, c.id).value)
  }

  predicate FallbacksKeep(l: Locality, cat: Catalog, id: string)
    requires Lookup(cat, id).Some?
  {
    forall x | x in Lookup(cat, id).value.fallbacks && Lookup(cat, x).Some? :: Keeps(l, Lookup(cat, x).value)
  }

  /** No listed entry has a fallback that breaks the locality. */
  predicate NoForeignFallback(l: Locality, cat: Catalog, order: seq<Candidate>) {
    forall b | b in order && Bound(l, b) && Lookup(cat, b.id).Some? :: FallbacksKeep(l, cat, b.id)
  }

  /** No listed id was adopted from a source that breaks the locality. */
  predicate DiscoveredKeep(l: Locality, cat: Catalog, order: seq<Candidate>) {
    forall b | b in order && Bound(l, b) && b.id !in cat.active && b.id in cat.discovered :: Keeps(l, cat.discovered[b.id])
  }

  lemma LookupDiscovered(cat: Catalog, id: string)
    requires id !in cat.active && id in cat.discovered
    ensures Lookup(cat, id) == Some(cat.discovered[id])
  {
  }

  lemma EntryKeeps(r: Registry, role: Role, over: bool, id: string)
    requires id in r.models && (role.locality.LocalOnly? || role.locality.LocalOrZdr?)
    requires Faultless(r, role, over, true, id)
    ensures IsVirtual(r.models[id]) || Keeps(role.locality, r.models[id])
  {
    assert !MemberFaulty(r, role, over, true, id, NotLocal(over, id));
    assert !MemberFaulty(r, role, over, true, id, NotZdr(over, id));
  }

  lemma DiscoveredIsForeign(r: Registry, role: Role, id: string, i: nat)
    requires role.locality.LocalOnly? && id !in r.models && i < |r.discovery| && Names(r, i, id)
    ensures !Faultless(r, role, false, true, id)
  {
    OneSource(r, role, false, true, id, i);
    hide Names, Adopts;
    var pid := ProviderId(r, i, id);
    var f := if Adopts(r, r.discovery[i], pid) then NotLocal(false, id) else NeverAdopted(false, id);
    assert DiscoveredFaulty(r, role, false, true, id, i, f);
  }

  lemma ExpansionKeeps(l: Locality, cat: Catalog, b: Candidate)
    requires Bound(l, b) && Lookup(cat, b.id).Some? ==> IsVirtual(Lookup(cat, b.id).value) || Keeps(l, Lookup(cat, b.id).value)
    ensures AllKeep(l, cat, Expansion(cat, b)) <==> (Bound(l, b) && Lookup(cat, b.id).Some? ==> FallbacksKeep(l, cat, b.id))
  {
    if Lookup(cat, b.id).Some? {
      var m := Lookup(cat, b.id).value;
      forall c
        ensures c in Links(m.fallbacks, b) <==> c.id in m.fallbacks && c.overflow == b.overflow && c.chain == b.id
      {
        LinksMembers(m.fallbacks, b, c);
      }
      hide Links, Keeps;
      if Bound(l, b) && AllKeep(l, cat, Expansion(cat, b)) {
        forall x | x in m.fallbacks && Lookup(cat, x).Some?
          ensures Keeps(l, Lookup(cat, x).value)
        {
          assert Candidate(x, b.overflow, b.id) in Expansion(cat, b);
        }
      }
    }
  }

  lemma ReachSplits(l: Locality, cat: Catalog, order: seq<Candidate>)
    ensures AllKeep(l, cat, Expanded(cat, order)) <==> forall b | b in order :: AllKeep(l, cat, Expansion(cat, b))
  {
    forall c
      ensures c in Expanded(cat, order) <==> exists b :: b in order && c in Expansion(cat, b)
    {
      ExpandedMembers(cat, order, c);
    }
    hide Expanded, Expansion, Lookup, Keeps, Bound;
  }

  /** One listed id: what is left to chance is its fallbacks, and the source it was adopted from. */
  lemma ListedKeeps(r: Registry, mode: string, cat: Catalog, role: Role, b: Candidate)
    requires Possible(r, mode, cat) && (role.locality.LocalOnly? || role.locality.LocalOrZdr?)
    requires Bound(role.locality, b) ==> Faultless(r, role, b.overflow, true, b.id)
    ensures var l := role.locality;
            AllKeep(l, cat, Expansion(cat, b)) <==>
            && (Bound(l, b) && Lookup(cat, b.id).Some? ==> FallbacksKeep(l, cat, b.id))
            && (Bound(l, b) && b.id !in cat.active && b.id in cat.discovered ==> Keeps(l, cat.discovered[b.id]))
  {
    var l := role.locality;
    hide Faultless, Keeps;
    if Bound(l, b) && b.id in cat.active {
      EntryKeeps(r, role, b.overflow, b.id);
      hide Possible;
      assert Lookup(cat, b.id).value == r.models[b.id];
      ExpansionKeeps(l, cat, b);
    } else if Bound(l, b) && b.id in cat.discovered {
      DiscoveredIsChat(r, mode, cat, b.id);
      hide Possible;
      DiscoveredAlone(l, cat, b);
    } else {
      hide Possible;
      ExpansionKeeps(l, cat, b);
    }
  }

  lemma DiscoveredAlone(l: Locality, cat: Catalog, b: Candidate)
    requires Bound(l, b) && b.id !in cat.active && b.id in cat.discovered && cat.discovered[b.id].fallbacks == []
    ensures AllKeep(l, cat, Expansion(cat, b)) <==> Keeps(l, cat.discovered[b.id])
    ensures FallbacksKeep(l, cat, b.id)
  {
    LookupDiscovered(cat, b.id);
    assert Expansion(cat, b) == [b];
    assert b in Expansion(cat, b);
    hide Keeps;
  }

  /** A validated role keeps its locality on everything it can reach exactly if no entry it lists has a
      fallback that breaks it, and no id it lists was adopted from a source that breaks it. Load time looks
      at the entries themselves and at the providers of pure chains, not at the fallbacks of an entry with
      its own backend; and it judges a discovered id by the longest matching prefix, while any source whose
      prefix matches may adopt it. */
  lemma LocalityHoldsExactly(r: Registry, mode: string, name: string, cat: Catalog)
    requires Validated(r) && Possible(r, mode, cat) && name in RolesSeen(r, mode)
    requires r.roles[name].locality.LocalOnly? || r.roles[name].locality.LocalOrZdr?
    ensures var (l, seen) := (r.roles[name].locality, RolesSeen(r, mode)[name]);
            AllKeep(l, cat, Reach(cat, seen)) <==> NoForeignFallback(l, cat, RoleList(seen)) && DiscoveredKeep(l, cat, RoleList(seen))
  {
    var (role, seen) := (r.roles[name], RolesSeen(r, mode)[name]);
    assert RoleOk(r, name, role);
    forall b | b in RoleList(seen)
      ensures AllKeep(role.locality, cat, Expansion(cat, b)) <==>
              && (Bound(role.locality, b) && Lookup(cat, b.id).Some? ==> FallbacksKeep(role.locality, cat, b.id))
              && (Bound(role.locality, b) && b.id !in cat.active && b.id in cat.discovered ==> Keeps(role.locality, cat.discovered[b.id]))
    {
      DeclaredMember(r, mode, role, seen, b);
      MemberOk(r, name, role, b);
      hide RolesSeen, Expanded, Faulty, Faultless, Possible, RoleList, AllKeep, FallbacksKeep, Expansion, Lookup, IsVirtual, Keeps;
      ListedKeeps(r, mode, cat, role, b);
    }
    hide RolesSeen, Expanded, Faulty, MemberFaulty, Possible, RoleList, AllKeep, FallbacksKeep, Expansion, Lookup, Keeps;
    ReachSplits(role.locality, cat, RoleList(seen));
  }

  // ----- locality, judged before the first listing --------------------------------------

  /** Every source that may come to adopt a listed id keeps the locality. */
  ghost predicate SourcesKeep(r: Registry, l: Locality, order: seq<Candidate>) {
    forall b, i: nat | b in order && Bound(l, b) && i < |r.discovery| && MayAdopt(r, i, b.id) :: SourceKeeps(l, r.discovery[i])
  }

  /** Source i adopts the id if its listing offers it. */
  predicate MayAdopt(r: Registry, i: nat, id: string)
    requires i < |r.discovery|
  {
    Under(r, i, id) && !Reserved(r, id) && Adopts(r, r.discovery[i], ProviderId(r, i, id))
  }

  predicate SourceKeeps(l: Locality, s: Source) {
    !l.LocalOnly? && s.apiBase != "" && s.zdrHost
  }

  lemma EntryOfSource(l: Locality, s: Source, lm: Listed)
    ensures Keeps(l, Entry(s, lm)) <==> SourceKeeps(l, s)
  {
  }

  /** The catalog after one listing that offers one id. */
  function OneAdopted(r: Registry, mode: string, i: nat, id: string): Catalog
    requires i < |r.discovery| && Under(r, i, id)
  {
    Catalog(ActiveModels(r, mode), map[id := Promise(r.discovery[i], ProviderId(r, i, id))])
  }

  lemma OneAdoptedIsPossible(r: Registry, mode: string, i: nat, id: string)
    requires i < |r.discovery| && MayAdopt(r, i, id)
    ensures Possible(r, mode, OneAdopted(r, mode, i, id))
  {
    hide ActiveModels, Adopts, Entry;
    var (pid, cat) := (ProviderId(r, i, id), OneAdopted(r, mode, i, id));
    assert id == r.discovery[i].prefix + pid;
    assert AdoptedFrom(r, i, Listed(pid, 0, false, false, false), id, cat.discovered[id]);
  }

  /** What discovery may ever adopt keeps the locality exactly if every source that may adopt a listed id
      does. */
  lemma DiscoveryKeepsExactly(r: Registry, mode: string, l: Locality, order: seq<Candidate>)
    ensures (forall cat | Possible(r, mode, cat) :: DiscoveredKeep(l, cat, order)) <==> SourcesKeep(r, l, order)
  {
    hide Possible, Keeps, Entry, MayAdopt, Bound, SourceKeeps;
    if SourcesKeep(r, l, order) {
      forall cat | Possible(r, mode, cat)
        ensures DiscoveredKeep(l, cat, order)
      {
        forall b | b in order && Bound(l, b) && b.id !in cat.active && b.id in cat.discovered
          ensures Keeps(l, cat.discovered[b.id])
        {
          var i, lm := AdoptedWhere(r, mode, cat, b.id);
          EntryOfSource(l, r.discovery[i], lm);
        }
      }
    } else {
      var b, i: nat :| b in order && Bound(l, b) && i < |r.discovery| && MayAdopt(r, i, b.id) && !SourceKeeps(l, r.discovery[i]);
      MayAdoptIsUnder(r, i, b.id);
      var cat := OneAdopted(r, mode, i, b.id);
      OneAdoptedIsPossible(r, mode, i, b.id);
      EntryOfSource(l, r.discovery[i], Listed(ProviderId(r, i, b.id), 0, false, false, false));
      assert !DiscoveredKeep(l, cat, order) by { ReservedIfActive(r, mode, b.id, i); }
    }
  }

  lemma MayAdoptIsUnder(r: Registry, i: nat, id: string)
    requires i < |r.discovery| && MayAdopt(r, i, id)
    ensures Under(r, i, id)
  {
  }

  lemma ReservedIfActive(r: Registry, mode: string, id: string, i: nat)
    requires i < |r.discovery| && MayAdopt(r, i, id)
    ensures id !in ActiveModels(r, mode)
  {
  }

  lemma AdoptedWhere(r: Registry, mode: string, cat: Catalog, id: string) returns (i: nat, lm: Listed)
    requires Possible(r, mode, cat) && id in cat.discovered
    ensures i < |r.discovery| && MayAdopt(r, i, id) && cat.discovered[id] == Entry(r.discovery[i], lm)
  {
    hide Adopts, Entry;
    assert Adopted(r, id, cat.discovered[id]) && !Reserved(r, id);
    i, lm :| i < |r.discovery| && AdoptedFrom(r, i, lm, id, cat.discovered[id]);
    assert ProviderId(r, i, id) == lm.id;
  }

  /** So a role keeps its locality under everything discovery may ever do exactly if no entry it lists has a
      fallback that breaks it, and every source that may adopt an id it lists keeps it: the check that load
      time would have to make. */
  lemma LocalityHoldsForGood(r: Registry, mode: string, name: string)
    requires Validated(r) && name in RolesSeen(r, mode)
    requires r.roles[name].locality.LocalOnly? || r.roles[name].locality.LocalOrZdr?
    ensures var (l, seen) := (r.roles[name].locality, RolesSeen(r, mode)[name]);
            (forall cat | Possible(r, mode, cat) :: AllKeep(l, cat, Reach(cat, seen))) <==>
            NoForeignFallback(l, Catalog(ActiveModels(r, mode), map[]), RoleList(seen)) && SourcesKeep(r, l, RoleList(seen))
  {
    var (l, list) := (r.roles[name].locality, RoleList(RolesSeen(r, mode)[name]));
    DiscoveryKeepsExactly(r, mode, l, list);
    forall cat | Possible(r, mode, cat)
      ensures AllKeep(l, cat, Expanded(cat, list)) <==> NoForeignFallback(l, Catalog(ActiveModels(r, mode), map[]), list) && DiscoveredKeep(l, cat, list)
    {
      LocalityHoldsExactly(r, mode, name, cat);
      FallbacksAreEntries(r, mode, l, cat, list);
    }
    NothingAdoptedIsPossible(r, mode);
    hide Validated, Possible, RolesSeen, RoleList, Expanded, AllKeep, NoForeignFallback, DiscoveredKeep, SourcesKeep, ActiveModels;
  }

  lemma NothingAdoptedIsPossible(r: Registry, mode: string)
    ensures Possible(r, mode, Catalog(ActiveModels(r, mode), map[]))
  {
  }

  /** Discovered entries have no fallbacks, and fallbacks are entries: discovery has no say in them. */
  lemma FallbacksAreEntries(r: Registry, mode: string, l: Locality, cat: Catalog, order: seq<Candidate>)
    requires Validated(r) && Possible(r, mode, cat)
    ensures NoForeignFallback(l, cat, order) <==> NoForeignFallback(l, Catalog(ActiveModels(r, mode), map[]), order)
  {
    var bare := Catalog(ActiveModels(r, mode), map[]);
    forall b | b in order && Bound(l, b)
      ensures (Lookup(cat, b.id).Some? ==> FallbacksKeep(l, cat, b.id)) <==> (Lookup(bare, b.id).Some? ==> FallbacksKeep(l, bare, b.id))
    {
      SameFallbacks(r, mode, l, cat, b.id);
    }
    hide FallbacksKeep, ActiveModels, Lookup, Possible, Validated;
  }

  lemma SameFallbacks(r: Registry, mode: string, l: Locality, cat: Catalog, id: string)
    requires Validated(r) && Possible(r, mode, cat)
    ensures var bare := Catalog(ActiveModels(r, mode), map[]);
            (Lookup(cat, id).Some? ==> FallbacksKeep(l, cat, id)) <==> (Lookup(bare, id).Some? ==> FallbacksKeep(l, bare, id))
  {
    var bare := Catalog(ActiveModels(r, mode), map[]);
    if id in cat.active {
      forall x | x in r.models[id].fallbacks
        ensures Lookup(cat, x) == Lookup(bare, x)
      {
        LinkClass(r, id, x);
        if x in cat.discovered {
          DiscoveredIsChat(r, mode, cat, x);
        }
      }
      hide Keeps, RoleOk, ChainOk, Adopted;
    } else if id in cat.discovered {
      DiscoveredIsChat(r, mode, cat, id);
    }
  }

  /** Every discovered entry comes from the source its id names by longest prefix. Unique prefixes do not
      give this; prefixes of which none starts another do. */
  ghost predicate Attributed(r: Registry, cat: Catalog) {
    forall id | id in cat.discovered :: NamedSource(r, id, cat.discovered[id])
  }

  ghost predicate NamedSource(r: Registry, id: string, m: ModelDef) {
    exists i: nat, lm: Listed :: i < |r.discovery| && Names(r, i, id) && m == Entry(r.discovery[i], lm)
  }

  /** Then load time judged each listed id by the right source, and only the fallbacks are left to chance. */
  lemma AttributedKeeps(r: Registry, mode: string, name: string, cat: Catalog)
    requires Validated(r) && Possible(r, mode, cat) && name in RolesSeen(r, mode) && Attributed(r, cat)
    requires r.roles[name].locality.LocalOnly? || r.roles[name].locality.LocalOrZdr?
    ensures DiscoveredKeep(r.roles[name].locality, cat, RoleList(RolesSeen(r, mode)[name]))
  {
    var (role, seen) := (r.roles[name], RolesSeen(r, mode)[name]);
    assert RoleOk(r, name, role);
    forall b | b in RoleList(seen) && Bound(role.locality, b) && b.id !in cat.active && b.id in cat.discovered
      ensures Keeps(role.locality, cat.discovered[b.id])
    {
      DeclaredMember(r, mode, role, seen, b);
      MemberOk(r, name, role, b);
      DiscoveredIsChat(r, mode, cat, b.id);
      assert NamedSource(r, b.id, cat.discovered[b.id]);
      hide RolesSeen, Faulty, MemberFaulty, Faultless, Possible, RoleList, Names, Attributed;
      NamedKeeps(r, role, b.overflow, b.id, cat.discovered[b.id]);
    }
  }

  /** For such catalogs the fallbacks alone decide. */
  lemma AttributedHoldsExactly(r: Registry, mode: string, name: string, cat: Catalog)
    requires Validated(r) && Possible(r, mode, cat) && name in RolesSeen(r, mode) && Attributed(r, cat)
    requires r.roles[name].locality.LocalOnly? || r.roles[name].locality.LocalOrZdr?
    ensures var (l, seen) := (r.roles[name].locality, RolesSeen(r, mode)[name]);
            AllKeep(l, cat, Reach(cat, seen)) <==> NoForeignFallback(l, cat, RoleList(seen))
  {
    AttributedKeeps(r, mode, name, cat);
    LocalityHoldsExactly(r, mode, name, cat);
    hide Validated, Possible, RolesSeen, RoleList, Expanded, AllKeep, NoForeignFallback, DiscoveredKeep;
  }

  /** With prefixes free of one another every catalog is of this kind. */
  lemma PrefixFreeAttributes(r: Registry, mode: string, cat: Catalog)
    requires Inventories.PrefixFree(r) && Possible(r, mode, cat)
    ensures Attributed(r, cat)
  {
    hide ActiveModels, Entry, Adopts, Reserved;
    forall id | id in cat.discovered
      ensures NamedSource(r, id, cat.discovered[id])
    {
      assert Adopted(r, id, cat.discovered[id]);
      var i: nat, lm :| i < |r.discovery| && AdoptedFrom(r, i, lm, id, cat.discovered[id]);
      forall j: nat | j < |r.discovery| && Under(r, j, id)
        ensures j == i
      {
        Inventories.OnePrefix(r, j, i, id);
      }
      assert Names(r, i, id);
    }
  }

  lemma NamedKeeps(r: Registry, role: Role, over: bool, id: string, m: ModelDef)
    requires id !in r.models && NamedSource(r, id, m) && Faultless(r, role, over, true, id)
    requires role.locality.LocalOnly? || role.locality.LocalOrZdr?
    requires role.locality.LocalOnly? ==> !over
    ensures Keeps(role.locality, m)
  {
    hide MemberFaulty;
    var i: nat, lm :| i < |r.discovery| && Names(r, i, id) && m == Entry(r.discovery[i], lm);
    if role.locality.LocalOnly? {
      DiscoveredIsForeign(r, role, id, i);
    } else {
      PromiseHolds(r, role, over, true, id, i);
      var promise := Promise(r.discovery[i], ProviderId(r, i, id));
      assert !EntryFaulty(r, role, over, true, id, promise, true, NotZdr(over, id));
    }
  }

  // ----- capabilities -------------------------------------------------------------------

  predicate Capable(m: ModelDef, capabilities: seq<string>) {
    forall c | c in capabilities :: c in m.capabilities
  }

  /** Whatever a walk can admit of these candidates under this catalog has what the role requires: whatever is up,
      whatever the tier and the size. */
  ghost predicate AdmitsCapable(capabilities: seq<string>, cat: Catalog, order: seq<Candidate>) {
    forall f: Fleet, tier: Tier, tokens: int, c: Candidate ::
      f.catalog == cat && c in order && Admitted(f, capabilities, tier, tokens, c.id) ==>
        Lookup(cat, c.id).Some? && Capable(Lookup(cat, c.id).value, capabilities)
  }

  /** Nothing but a capability can be wrong with this entry that the walk would not see. */
  predicate Vouched(capabilities: seq<string>, m: ModelDef) {
    IsDiscovered(m) || Capable(m, capabilities)
  }

  predicate FallbacksVouched(capabilities: seq<string>, cat: Catalog, id: string)
    requires Lookup(cat, id).Some?
  {
    forall x | x in Lookup(cat, id).value.fallbacks && Lookup(cat, x).Some? :: Vouched(capabilities, Lookup(cat, x).value)
  }

  /** No listed entry has a fallback that is not marked as discovered and lacks a required capability. */
  predicate NoWeakFallback(capabilities: seq<string>, cat: Catalog, order: seq<Candidate>) {
    forall b | b in order && Lookup(cat, b.id).Some? :: FallbacksVouched(capabilities, cat, b.id)
  }

  lemma AdmittedIsCapable(f: Fleet, capabilities: seq<string>, tier: Tier, tokens: int, id: string)
    requires Admitted(f, capabilities, tier, tokens, id)
    ensures Lookup(f.catalog, id).Some?
    ensures Vouched(capabilities, Lookup(f.catalog, id).value) ==> Capable(Lookup(f.catalog, id).value, capabilities)
  {
  }

  /** A moment at which an entry nobody vouches for is let in. */
  lemma UnvouchedIsAdmitted(cat: Catalog, capabilities: seq<string>, id: string)
    requires Lookup(cat, id).Some? && !Vouched(capabilities, Lookup(cat, id).value)
    ensures var f := Fleet(cat, {id}, {id}); Admitted(f, capabilities, TierNone, 0, id) && !Capable(Lookup(cat, id).value, capabilities)
  {
  }

  /** What load time lets a role list is vouched for: a configured entry has the capabilities, and a discovered one
      carries the mark. */
  lemma MemberVouched(r: Registry, mode: string, cat: Catalog, role: Role, over: bool, enforced: bool, id: string)
    requires Possible(r, mode, cat) && Lookup(cat, id).Some? && Faultless(r, role, over, enforced, id)
    ensures Vouched(role.capabilities, Lookup(cat, id).value)
  {
    hide Reserved;
    if id in cat.active {
      forall c | c in role.capabilities
        ensures c in r.models[id].capabilities
      {
        assert !MemberFaulty(r, role, over, enforced, id, Lacks(over, id, c));
      }
    } else {
      assert Adopted(r, id, cat.discovered[id]);
      var i: nat, lm: Listed :| i < |r.discovery| && AdoptedFrom(r, i, lm, id, cat.discovered[id]);
      EntryClaimsExactly(r.discovery[i], lm, "");
    }
  }

  /** A validated role only ever routes to what has the capabilities it requires exactly if no entry it lists has a
      fallback without them: load time asks them of the entries, the walk of discovered ones, and nobody of the rest. */
  lemma CapabilitiesHoldExactly(r: Registry, mode: string, name: string, cat: Catalog)
    requires Validated(r) && Possible(r, mode, cat) && name in RolesSeen(r, mode)
    ensures var seen := RolesSeen(r, mode)[name];
            AdmitsCapable(seen.capabilities, cat, Reach(cat, seen)) <==> NoWeakFallback(seen.capabilities, cat, RoleList(seen))
  {
    var (role, seen) := (r.roles[name], RolesSeen(r, mode)[name]);
    forall b | b in RoleList(seen) && Lookup(cat, b.id).Some?
      ensures Vouched(seen.capabilities, Lookup(cat, b.id).value)
    {
      DeclaredMember(r, mode, role, seen, b);
      assert RoleOk(r, name, role);
      MemberOk(r, name, role, b);
      hide Faultless, Faulty;
      MemberVouched(r, mode, cat, role, b.overflow, Enforced(role, b.overflow), b.id);
    }
    hide RolesSeen, RoleList, Validated, Possible, Vouched, FallbacksVouched, AdmitsCapable, NoWeakFallback;
    if NoWeakFallback(seen.capabilities, cat, RoleList(seen)) {
      StrongListsHold(cat, seen.capabilities, RoleList(seen));
    } else {
      WeakListsFail(cat, seen.capabilities, RoleList(seen));
    }
  }

  lemma StrongListsHold(cat: Catalog, capabilities: seq<string>, list: seq<Candidate>)
    requires NoWeakFallback(capabilities, cat, list)
    requires forall b | b in list && Lookup(cat, b.id).Some? :: Vouched(capabilities, Lookup(cat, b.id).value)
    ensures AdmitsCapable(capabilities, cat, Expanded(cat, list))
  {
    forall f: Fleet, tier: Tier, tokens: int, c: Candidate
      | f.catalog == cat && c in Expanded(cat, list) && Admitted(f, capabilities, tier, tokens, c.id)
      ensures Lookup(cat, c.id).Some? && Capable(Lookup(cat, c.id).value, capabilities)
    {
      AdmittedIsCapable(f, capabilities, tier, tokens, c.id);
      ExpandedMembers(cat, list, c);
      var b :| b in list && c in Expansion(cat, b);
      hide Admitted, Expanded, Vouched, Capable;
      if c.id != b.id {
        assert Lookup(cat, b.id).Some? && FallbacksVouched(capabilities, cat, b.id);
        LinksMembers(Lookup(cat, b.id).value.fallbacks, b, c);
      }
    }
  }

  lemma WeakListsFail(cat: Catalog, capabilities: seq<string>, list: seq<Candidate>)
    requires !NoWeakFallback(capabilities, cat, list)
    ensures !AdmitsCapable(capabilities, cat, Expanded(cat, list))
  {
    hide Vouched, Admitted, Capable;
    var b :| b in list && Lookup(cat, b.id).Some? && !FallbacksVouched(capabilities, cat, b.id);
    var m := Lookup(cat, b.id).value;
    var x :| x in m.fallbacks && Lookup(cat, x).Some? && !Vouched(capabilities, Lookup(cat, x).value);
    var c := Candidate(x, b.overflow, b.id);
    LinksMembers(m.fallbacks, b, c);
    ExpandedMembers(cat, list, c);
    assert c in Expansion(cat, b);
    UnvouchedIsAdmitted(cat, capabilities, x);
    hide Expanded, Expansion, Links;
    var f := Fleet(cat, {x}, {x});
    assert f.catalog == cat && c in Expanded(cat, list) && Admitted(f, capabilities, TierNone, 0, c.id);
  }

  // ----- the locality gap, in the small -------------------------------------------------

  function Sited(node: string, apiBase: string, fallbacks: seq<string>): ModelDef {
    ModelDef(apiBase, false, node, false, fallbacks, true, [], ["text"], CHAT, [], "m", node == "", false, 0, 0, ModelDefaults(map[], map[]))
  }

  const GPU := "gpu"
  const CLOUD := "cloud"
  const CODER := "coder"

  const GAP_ROLE := Role(LocalOnly, [], CHAT, [GPU], ErrorOut, [], InOrder, [])

  /** A fleet seat with a cloud fallback, in a role that requires local candidates. */
  function GapRegistry(): Registry {
    Registry(map[GPU := Sited("n1", "", [CLOUD]), CLOUD := Sited("", "https://c", [])], map[CODER := GAP_ROLE], [], (p, x) => false)
  }

  function GapCatalog(): Catalog {
    Catalog(ActiveModels(GapRegistry(), ""), map[])
  }

  /** Load time accepts it, and the role reaches the cloud. */
  lemma LocalityGap()
    ensures Validated(GapRegistry()) && Possible(GapRegistry(), "", GapCatalog()) && CODER in RolesSeen(GapRegistry(), "")
    ensures !AllKeep(LocalOnly, GapCatalog(), Reach(GapCatalog(), RolesSeen(GapRegistry(), "")[CODER]))
  {
    GapRoleOk();
    GapChainsOk();
    GapPossible();
    GapLeaks();
    hide RoleOk, ChainOk, Possible, AllKeep, ActiveModels, RoleSeen, Expanded;
  }

  lemma GapPossible()
    ensures Possible(GapRegistry(), "", GapCatalog())
  {
    hide ActiveModels, Adopted;
  }

  lemma GapLeaks()
    ensures CODER in RolesSeen(GapRegistry(), "")
    ensures !AllKeep(LocalOnly, GapCatalog(), Reach(GapCatalog(), RolesSeen(GapRegistry(), "")[CODER]))
  {
    GapSeen();
    GapLookups();
    var seen := RoleSeen(GapRegistry(), "", GAP_ROLE);
    GapReach(seen);
    hide Expanded, RoleList, RoleSeen, GapCatalog, Lookup;
    assert Bound(LocalOnly, Candidate(CLOUD, false, GPU));
  }

  lemma GapLookups()
    ensures Lookup(GapCatalog(), GPU) == Some(Sited("n1", "", [CLOUD]))
    ensures Lookup(GapCatalog(), CLOUD) == Some(Sited("", "https://c", []))
  {
    assert GPU != CLOUD;
  }

  lemma GapReach(seen: Role)
    requires seen.candidates == [GPU] && seen.onEmpty.ErrorOut?
    ensures Candidate(CLOUD, false, GPU) in Reach(GapCatalog(), seen)
  {
    var (cat, c, x) := (GapCatalog(), Candidate(GPU, false, ""), Candidate(CLOUD, false, GPU));
    GapLookups();
    ExpandedMembers(cat, RoleList(seen), x);
    assert RoleList(seen)[0] == c;
    LinksMembers([CLOUD], c, x);
    assert x in Expansion(cat, c);
    hide Expanded, Expansion, Links;
  }

  lemma GapSeen()
    ensures RoleSeen(GapRegistry(), "", GAP_ROLE).candidates == [GPU] && CODER in RolesSeen(GapRegistry(), "")
    ensures RolesSeen(GapRegistry(), "")[CODER] == RoleSeen(GapRegistry(), "", GAP_ROLE)
  {
    assert [GPU][..0] == [];
    assert Kept(GapRegistry(), "", GPU);
    assert Survivors(GapRegistry(), "", []) == [];
  }

  lemma GapRoleOk()
    ensures RoleOk(GapRegistry(), CODER, GAP_ROLE)
  {
    forall f
      ensures !Faulty(GapRegistry(), CODER, GAP_ROLE, f)
    {
      MemberShape(GapRegistry(), GAP_ROLE, false, true, GPU, f);
    }
  }

  lemma GapChainsOk()
    ensures forall id | id in GapRegistry().models :: ChainOk(GapRegistry(), id, GapRegistry().models[id])
  {
  }

  // ----- the capability gap, in the small -----------------------------------------------

  const VISION_ROLE := Role(Anywhere, ["vision"], CHAT, [GPU], ErrorOut, [], InOrder, [])

  /** A seat with vision and a fallback without, in a role that requires it. */
  function WeakRegistry(): Registry {
    Registry(map[GPU := Sited("n1", "", [CLOUD]).(capabilities := ["vision"]), CLOUD := Sited("", "https://c", [])],
             map[CODER := VISION_ROLE], [], (p, x) => false)
  }

  function WeakCatalog(): Catalog {
    Catalog(ActiveModels(WeakRegistry(), ""), map[])
  }

  /** Load time accepts it, and the role can be served by the seat without vision. */
  lemma CapabilityGap()
    ensures Validated(WeakRegistry()) && Possible(WeakRegistry(), "", WeakCatalog()) && CODER in RolesSeen(WeakRegistry(), "")
    ensures !AdmitsCapable(["vision"], WeakCatalog(), Reach(WeakCatalog(), RolesSeen(WeakRegistry(), "")[CODER]))
  {
    WeakRoleOk();
    WeakChainsOk();
    WeakPossible();
    WeakSeen();
    hide RoleOk, ChainOk, Possible, RolesSeen, WeakCatalog, RoleSeen, Expanded, AdmitsCapable, NoWeakFallback;
    WeakFalls(RoleSeen(WeakRegistry(), "", VISION_ROLE));
    assert Validated(WeakRegistry());
    CapabilitiesHoldExactly(WeakRegistry(), "", CODER, WeakCatalog());
  }

  lemma WeakFalls(seen: Role)
    requires seen.candidates == [GPU]
    ensures !NoWeakFallback(["vision"], WeakCatalog(), RoleList(seen))
  {
    WeakLookups();
    hide Vouched, WeakCatalog, Lookup;
    var b := Candidate(GPU, false, "");
    assert RoleList(seen)[0] == b;
    assert CLOUD in Lookup(WeakCatalog(), GPU).value.fallbacks;
    assert !FallbacksVouched(["vision"], WeakCatalog(), b.id);
  }

  lemma WeakPossible()
    ensures Possible(WeakRegistry(), "", WeakCatalog())
  {
    hide ActiveModels, Adopted;
  }

  lemma WeakLookups()
    ensures Lookup(WeakCatalog(), GPU) == Some(Sited("n1", "", [CLOUD]).(capabilities := ["vision"]))
    ensures Lookup(WeakCatalog(), CLOUD) == Some(Sited("", "https://c", []))
    ensures !Vouched(["vision"], Sited("", "https://c", []))
  {
    assert GPU != CLOUD && "vision" in ["vision"];
  }

  lemma WeakSeen()
    ensures var seen := RoleSeen(WeakRegistry(), "", VISION_ROLE);
            && seen.candidates == [GPU] && seen.capabilities == ["vision"] && seen.onEmpty.ErrorOut?
            && CODER in RolesSeen(WeakRegistry(), "") && RolesSeen(WeakRegistry(), "")[CODER] == seen
  {
    assert [GPU][..0] == [];
    assert Kept(WeakRegistry(), "", GPU);
    assert Survivors(WeakRegistry(), "", []) == [];
  }

  lemma WeakRoleOk()
    ensures RoleOk(WeakRegistry(), CODER, VISION_ROLE)
  {
    forall f
      ensures !Faulty(WeakRegistry(), CODER, VISION_ROLE, f)
    {
      MemberShape(WeakRegistry(), VISION_ROLE, false, true, GPU, f);
    }
  }

  lemma WeakChainsOk()
    ensures forall id | id in WeakRegistry().models :: ChainOk(WeakRegistry(), id, WeakRegistry().models[id])
  {
  }

  // ----- the gap of nested prefixes -----------------------------------------------------

  const WIDE := Source("https://w", false, "or/", true, [], [], [], [], 0)
  const NARROW := Source("https://n", true, "or/x/", true, [], [], [], [], 0)
  const LISTED := "or/x/y"
  const NESTED_ROLE := Role(LocalOrZdr, [], CHAT, [LISTED], ErrorOut, [], InOrder, [])

  /** Two sources, one prefix starting the other, and a role that tolerates zero retention only. */
  function NestedRegistry(): Registry {
    Registry(map[], map[CODER := NESTED_ROLE], [WIDE, NARROW], (p, x) => false)
  }

  /** The wide source has listed "x/y". */
  function NestedCatalog(): Catalog {
    Catalog(ActiveModels(NestedRegistry(), ""), map[LISTED := Entry(WIDE, Listed("x/y", 0, false, false, false))])
  }

  lemma NestedUnder()
    ensures Under(NestedRegistry(), 0, LISTED) && ProviderId(NestedRegistry(), 0, LISTED) == "x/y"
    ensures Under(NestedRegistry(), 1, LISTED) && Names(NestedRegistry(), 1, LISTED)
    ensures "or/" + "x/y" == LISTED
  {
    assert WIDE.prefix <= LISTED && NARROW.prefix <= LISTED;
    assert LISTED[|"or/"|..] == "x/y";
  }

  lemma NestedRoleOk()
    ensures RoleOk(NestedRegistry(), CODER, NESTED_ROLE)
  {
    NestedUnder();
    forall f
      ensures !Faulty(NestedRegistry(), CODER, NESTED_ROLE, f)
    {
      OneSource(NestedRegistry(), NESTED_ROLE, false, true, LISTED, 1);
      MemberShape(NestedRegistry(), NESTED_ROLE, false, true, LISTED, f);
      hide Names, Under;
    }
  }

  lemma NestedSeen()
    ensures CODER in RolesSeen(NestedRegistry(), "")
    ensures Candidate(LISTED, false, "") in RoleList(RolesSeen(NestedRegistry(), "")[CODER])
    ensures RolesSeen(NestedRegistry(), "")[CODER].candidates == [LISTED] && RolesSeen(NestedRegistry(), "")[CODER].onEmpty.ErrorOut?
  {
    NestedUnder();
    hide Under;
    assert [LISTED][..0] == [];
    assert Kept(NestedRegistry(), "", LISTED);
    assert Survivors(NestedRegistry(), "", []) == [];
    assert RoleSeen(NestedRegistry(), "", NESTED_ROLE).candidates == [LISTED];
    assert RoleList(RoleSeen(NestedRegistry(), "", NESTED_ROLE))[0] == Candidate(LISTED, false, "");
  }

  lemma NestedIsPossible()
    ensures Possible(NestedRegistry(), "", NestedCatalog())
  {
    NestedUnder();
    assert !Reserved(NestedRegistry(), LISTED);
    assert AdoptedFrom(NestedRegistry(), 0, Listed("x/y", 0, false, false, false), LISTED, NestedCatalog().discovered[LISTED]);
  }

  /** Load time judges the id by the longer prefix and accepts the role; the source of the shorter one adopts
      it, no fallback is involved, and the role reaches a seat that cannot be held to zero retention. */
  lemma NestedPrefixGap()
    ensures Validated(NestedRegistry()) && Possible(NestedRegistry(), "", NestedCatalog()) && CODER in RolesSeen(NestedRegistry(), "")
    ensures var seen := RolesSeen(NestedRegistry(), "")[CODER];
            NoForeignFallback(LocalOrZdr, NestedCatalog(), RoleList(seen)) && !AllKeep(LocalOrZdr, NestedCatalog(), Reach(NestedCatalog(), seen))
  {
    hide Possible, RolesSeen, Expanded, AllKeep, NoForeignFallback, DiscoveredKeep, RoleList, RoleOk, ChainOk, NestedCatalog;
    NestedRoleOk();
    NestedIsPossible();
    NestedSeen();
    assert Validated(NestedRegistry());
    var seen := RolesSeen(NestedRegistry(), "")[CODER];
    NestedLeaks(seen);
    NestedFallbacks(seen);
    LocalityHoldsExactly(NestedRegistry(), "", CODER, NestedCatalog());
  }

  lemma NestedLeaks(seen: Role)
    requires Candidate(LISTED, false, "") in RoleList(seen)
    ensures !DiscoveredKeep(LocalOrZdr, NestedCatalog(), RoleList(seen))
  {
    hide RoleList, ActiveModels;
    var b := Candidate(LISTED, false, "");
    EntryOfSource(LocalOrZdr, WIDE, Listed("x/y", 0, false, false, false));
    hide Entry;
    assert NestedRegistry().models == map[];
    assert ActiveModels(NestedRegistry(), "") == map[] by { NothingActive(); }
    assert Bound(LocalOrZdr, b) && b.id in NestedCatalog().discovered;
  }

  lemma NothingActive()
    ensures ActiveModels(NestedRegistry(), "") == map[]
  {
  }

  lemma NestedFallbacks(seen: Role)
    requires seen.candidates == [LISTED] && seen.onEmpty.ErrorOut?
    ensures NoForeignFallback(LocalOrZdr, NestedCatalog(), RoleList(seen))
  {
  }
}
