/** The registry: model entries, roles and discovery sources, and the parts of them one mode of the
    router sees (internal/config/config.go, internal/config/discovery.go). */
module Registries {
  import opened RequestDefaults
  import Sorting

  /** A model entry. Whether the host of its api_base can be held to zero retention (zdrHost), its hard
      window and its patterns' matches are read off text this model does not parse. */
  datatype ModelDef = ModelDef(
    apiBase: string, zdrHost: bool, node: string, multiNode: bool, fallbacks: seq<string>,
    enabled: bool, tags: seq<string>, capabilities: seq<string>, apiClass: string, aliases: seq<string>,
    hfRepo: string, external: bool, toolProxy: bool, window: int, effectiveContext: int, defaults: ModelDefaults)

  datatype Locality = Anywhere | LocalOnly | LocalOrZdr | OtherLocality

  datatype OnEmpty = ErrorOut | OverflowTo | OtherOnEmpty

  datatype Balance = InOrder | ByPressure | OtherBalance

  datatype Role = Role(
    locality: Locality, capabilities: seq<string>, apiClass: string,
    candidates: seq<string>, onEmpty: OnEmpty, overflow: seq<string>,
    balance: Balance, balanceGroups: seq<seq<string>>)

  datatype Source = Source(
    apiBase: string, zdrHost: bool, prefix: string, adoptAll: bool, adopt: seq<string>, exclude: seq<string>,
    capabilities: seq<string>, tags: seq<string>, contextLength: int)

  /** One id of a provider's listing; free says both its prices are zero. */
  datatype Listed = Listed(id: string, contextLength: int, toolCalling: bool, vision: bool, free: bool)

  datatype Registry = Registry(
    models: map<string, ModelDef>, roles: map<string, Role>, discovery: seq<Source>, glob: (string, string) -> bool)

  const DISCOVERED := "discovered"
  const CHAT := "chat"

  predicate IsLocal(m: ModelDef) {
    m.node != "" || m.multiNode
  }

  predicate ZdrEnforceable(m: ModelDef) {
    m.apiBase != "" && m.zdrHost
  }

  /** A fallback chain without a backend of its own. */
  predicate IsVirtual(m: ModelDef) {
    m.fallbacks != [] && m.apiBase == "" && m.node == "" && !m.multiNode
  }

  predicate IsDiscovered(m: ModelDef) {
    DISCOVERED in m.tags
  }

  /** The name the engine behind an entry serves it under: the repository without its "#variant". */
  function BackendName(repo: string): (name: string)
    ensures name <= repo && '#' !in name && (name == repo || repo[|name|] == '#')
  {
    if repo == "" || repo[0] == '#' then "" else [repo[0]] + BackendName(repo[1..])
  }

  // ----- modes --------------------------------------------------------------------------

  const MODE := "mode:"

  /** The mode of the first "mode:" tag, "" if there is none. */
  function ModeTag(tags: seq<string>): string {
    if tags == [] then ""
    else if MODE <= tags[0] then tags[0][|MODE|..]
    else ModeTag(tags[1..])
  }

  predicate InMode(m: ModelDef, mode: string) {
    m.enabled && (mode == "" || ModeTag(m.tags) == "" || ModeTag(m.tags) == mode)
  }

  /** The tag at k is the first to name a mode. */
  predicate FirstModeTag(tags: seq<string>, k: int) {
    0 <= k < |tags| && MODE <= tags[k] && forall j | 0 <= j < k :: !(MODE <= tags[j])
  }

  lemma {:induction false} ModeTagIsFirst(tags: seq<string>)
    ensures (forall k | 0 <= k < |tags| :: !(MODE <= tags[k])) ==> ModeTag(tags) == ""
    ensures forall k | FirstModeTag(tags, k) :: MODE + ModeTag(tags) == tags[k]
  {
    if tags != [] {
      ModeTagIsFirst(tags[1..]);
      forall k | FirstModeTag(tags, k)
        ensures MODE + ModeTag(tags) == tags[k]
      {
        if k > 0 {
          assert !(MODE <= tags[0]);
          assert forall j | 0 <= j < k - 1 :: tags[1..][j] == tags[j + 1];
          assert FirstModeTag(tags[1..], k - 1);
        }
      }
    }
  }

  /** An enabled entry is in every mode unless it names one: then in that one, by its first tag that names any. */
  lemma InModeExactly(m: ModelDef, mode: string)
    ensures InMode(m, mode) <==>
              m.enabled && (mode == "" || (forall k | FirstModeTag(m.tags, k) :: m.tags[k] == "mode:" || m.tags[k] == "mode:" + mode))
  {
    ModeTagIsFirst(m.tags);
    if k :| 0 <= k < |m.tags| && MODE <= m.tags[k] {
      FirstExists(m.tags, k);
      var f :| FirstModeTag(m.tags, f);
      assert MODE + ModeTag(m.tags) == m.tags[f];
      assert ModeTag(m.tags) == m.tags[f][|MODE|..];
      assert m.tags[f] == "mode:" + mode ==> m.tags[f][|MODE|..] == mode;
    }
  }

  lemma {:induction false} FirstExists(tags: seq<string>, k: nat)
    requires k < |tags| && MODE <= tags[k]
    ensures exists f :: FirstModeTag(tags, f)
    decreases k
  {
    if j :| 0 <= j < k && MODE <= tags[j] {
      FirstExists(tags, j);
    } else {
      assert FirstModeTag(tags, k);
    }
  }

  function ActiveModels(r: Registry, mode: string): map<string, ModelDef> {
    map id | id in r.models && InMode(r.models[id], mode) :: r.models[id]
  }

  method ModelsForMode(r: Registry, mode: string) returns (out: map<string, ModelDef>)
    ensures out == ActiveModels(r, mode)
  {
    out := map[];
    var todo := r.models.Keys;
    while todo != {}
      invariant todo <= r.models.Keys
      invariant forall id :: id in out <==> id in r.models && id !in todo && InMode(r.models[id], mode)
      invariant forall id | id in out :: out[id] == r.models[id]
      decreases todo
    {
      var id := Sorting.Pick(todo);
      if InMode(r.models[id], mode) {
        out := out[id := r.models[id]];
      }
      todo := todo - {id};
    }
  }

  // ----- discovery ----------------------------------------------------------------------

  predicate Matches(r: Registry, patterns: seq<string>, id: string) {
    exists p :: p in patterns && r.glob(p, id)
  }

  predicate Adopts(r: Registry, s: Source, id: string) {
    (s.adoptAll || Matches(r, s.adopt, id)) && !Matches(r, s.exclude, id)
  }

  /** The id is under this source's prefix. */
  predicate Under(r: Registry, i: nat, id: string)
    requires i < |r.discovery|
  {
    var p := r.discovery[i].prefix;
    p != "" && p <= id && |id| > |p|
  }

  /** Source i is the one that names the id: no source has a longer matching prefix, no earlier one an
      equally long one. */
  predicate Names(r: Registry, i: nat, id: string)
    requires i < |r.discovery|
  {
    Under(r, i, id) &&
    forall j: nat | j < |r.discovery| && Under(r, j, id) ::
      |r.discovery[j].prefix| < |r.discovery[i].prefix| || (|r.discovery[j].prefix| == |r.discovery[i].prefix| && i <= j)
  }

  predicate IsMember(r: Registry, id: string) {
    exists i: nat :: i < |r.discovery| && Under(r, i, id)
  }

  /** The source an id belongs to by longest prefix, and the provider's own id. */
  method DiscoveredMember(r: Registry, id: string) returns (found: Option<(nat, string)>)
    ensures found.None? <==> !IsMember(r, id)
    ensures found.Some? ==> found.value.0 < |r.discovery| && Names(r, found.value.0, id)
                            && id == r.discovery[found.value.0].prefix + found.value.1
  {
    var best: Option<nat> := None;
    for i := 0 to |r.discovery|
      invariant best.None? ==> forall j: nat | j < i :: !Under(r, j, id)
      invariant best.Some? ==> best.value < i && Under(r, best.value, id)
      invariant best.Some? ==>
                  forall j: nat | j < i && Under(r, j, id) ::
                    || |r.discovery[j].prefix| < |r.discovery[best.value].prefix|
                    || (|r.discovery[j].prefix| == |r.discovery[best.value].prefix| && best.value <= j)
    {
      if Under(r, i, id) && (best.None? || |r.discovery[i].prefix| > |r.discovery[best.value].prefix|) {
        best := Some(i);
      }
    }
    if best.None? {
      return None;
    }
    var p := r.discovery[best.value].prefix;
    found := Some((best.value, id[|p|..]));
  }

  lemma NamesIsUnique(r: Registry, i: nat, j: nat, id: string)
    requires i < |r.discovery| && j < |r.discovery| && Names(r, i, id) && Names(r, j, id)
    ensures i == j
  {
    assert Under(r, i, id) && Under(r, j, id);
  }

  /** An id under some prefix is named by one source. */
  lemma {:induction false} NamesExists(r: Registry, id: string)
    requires IsMember(r, id)
    ensures exists i: nat :: i < |r.discovery| && Names(r, i, id)
  {
    var best: nat :| best < |r.discovery| && Under(r, best, id);
    for n := 0 to |r.discovery|
      invariant best < |r.discovery| && Under(r, best, id)
      invariant forall j: nat | j < n && Under(r, j, id) ::
                  |r.discovery[j].prefix| < |r.discovery[best].prefix| || (|r.discovery[j].prefix| == |r.discovery[best].prefix| && best <= j)
    {
      if Under(r, n, id) && (|r.discovery[n].prefix| > |r.discovery[best].prefix| ||
                             (|r.discovery[n].prefix| == |r.discovery[best].prefix| && n < best)) {
        best := n;
      }
    }
    assert Names(r, best, id);
  }

  function Without(xs: seq<string>, seen: seq<string>): seq<string> {
    if xs == [] then []
    else if xs[0] in seen then Without(xs[1..], seen)
    else [xs[0]] + Without(xs[1..], seen + [xs[0]])
  }

  /** The entry an adopted id gets: external, enabled, chat class, marked as discovered, claiming no
      capability beyond text but what the listing or the source vouches for. */
  function Entry(s: Source, lm: Listed): ModelDef {
    var base := ["text"] + (if lm.toolCalling then ["tool_calling"] else []) + (if lm.vision then ["vision"] else []);
    var marks := [DISCOVERED] + if lm.free then [] else ["paid"];
    ModelDef(s.apiBase, s.zdrHost, "", false, [], true,
             marks + Without(s.tags, marks), base + Without(s.capabilities, base), CHAT, [],
             lm.id, true, false, if lm.contextLength == 0 then s.contextLength else lm.contextLength, 0,
             ModelDefaults(map[], map[]))
  }

  lemma {:induction false} WithoutHas(xs: seq<string>, seen: seq<string>, x: string)
    ensures x in Without(xs, seen) <==> x in xs && x !in seen
  {
    if xs != [] {
      WithoutHas(xs[1..], seen, x);
      WithoutHas(xs[1..], seen + [xs[0]], x);
      assert xs == [xs[0]] + xs[1..];
    }
  }

  /** A discovered entry claims text, what the listing says, what the source vouches for, and nothing else;
      it is marked as discovered, and as paid unless the listing prices it at zero. It stands for the listed id at
      the source's address, held to zero retention as the source's host is, with the listed window or else the source's. */
  lemma EntryClaimsExactly(s: Source, lm: Listed, c: string)
    ensures var e := Entry(s, lm);
            && e.enabled && e.apiBase == s.apiBase && e.hfRepo == lm.id && (ZdrEnforceable(e) <==> s.apiBase != "" && s.zdrHost)
            && (lm.contextLength != 0 ==> e.window == lm.contextLength) && (lm.contextLength == 0 ==> e.window == s.contextLength)
    ensures c in Entry(s, lm).capabilities <==>
              c == "text" || (lm.toolCalling && c == "tool_calling") || (lm.vision && c == "vision") || c in s.capabilities
    ensures IsDiscovered(Entry(s, lm)) && !IsVirtual(Entry(s, lm)) && !IsLocal(Entry(s, lm))
    ensures c in Entry(s, lm).tags <==> c == DISCOVERED || (!lm.free && c == "paid") || c in s.tags
  {
    var base := ["text"] + (if lm.toolCalling then ["tool_calling"] else []) + (if lm.vision then ["vision"] else []);
    var marks := [DISCOVERED] + if lm.free then [] else ["paid"];
    WithoutHas(s.capabilities, base, c);
    WithoutHas(s.tags, marks, c);
  }

  // ----- roles in a mode ----------------------------------------------------------------

  /** What one mode keeps of a role's list: the entries active in it, and the ids that are no entries at
      all but lie under a discovery prefix. */
  predicate Kept(r: Registry, mode: string, id: string) {
    if id in r.models then InMode(r.models[id], mode) else IsMember(r, id)
  }

  function Survivors(r: Registry, mode: string, ids: seq<string>): seq<string> {
    if ids == [] then []
    else
      var rest := Survivors(r, mode, ids[..|ids| - 1]);
      if Kept(r, mode, ids[|ids| - 1]) then rest + [ids[|ids| - 1]] else rest
  }

  function Present(ids: seq<string>, among: seq<string>): seq<string> {
    if ids == [] then []
    else
      var rest := Present(ids[..|ids| - 1], among);
      if ids[|ids| - 1] in among then rest + [ids[|ids| - 1]] else rest
  }

  function PresentGroups(groups: seq<seq<string>>, among: seq<string>): seq<seq<string>> {
    if groups == [] then []
    else
      var rest := PresentGroups(groups[..|groups| - 1], among);
      var kept := Present(groups[|groups| - 1], among);
      if kept == [] then rest else rest + [kept]
  }

  /** The role as one mode sees it: its lists filtered in order, and no group left empty. */
  function RoleSeen(r: Registry, mode: string, role: Role): Role {
    var candidates := Survivors(r, mode, role.candidates);
    role.(candidates := candidates, overflow := Survivors(r, mode, role.overflow),
          balanceGroups := PresentGroups(role.balanceGroups, candidates))
  }

  /** The roles one mode offers: those that have anything left to route to. */
  function RolesSeen(r: Registry, mode: string): map<string, Role> {
    map name | name in r.roles &&
               (RoleSeen(r, mode, r.roles[name]).candidates != [] || RoleSeen(r, mode, r.roles[name]).overflow != [])
      :: RoleSeen(r, mode, r.roles[name])
  }

  lemma {:induction false} SurvivorsAre(r: Registry, mode: string, ids: seq<string>)
    ensures forall id :: id in Survivors(r, mode, ids) <==> id in ids && Kept(r, mode, id)
  {
    if ids != [] {
      SurvivorsAre(r, mode, ids[..|ids| - 1]);
      assert ids == ids[..|ids| - 1] + [ids[|ids| - 1]];
    }
  }

  function Keeping(r: Registry, mode: string): string -> bool {
    id => Kept(r, mode, id)
  }

  function Among(ids: seq<string>): string -> bool {
    id => id in ids
  }

  function AnyAmong(ids: seq<string>): seq<string> -> bool {
    group => exists id :: id in group && id in ids
  }

  function Itself(): string -> string {
    id => id
  }

  function ThoseAmong(ids: seq<string>): seq<string> -> seq<string> {
    group => Present(group, ids)
  }

  /** The order of preference survives the filter. */
  lemma {:induction false} SurvivorsInOrder(r: Registry, mode: string, ids: seq<string>)
    ensures Sorting.Filtered(ids, Keeping(r, mode), Itself(), Survivors(r, mode, ids))
  {
    hide Sorting.Filtered, Kept;
    if ids == [] {
      Sorting.NothingFiltered(Keeping(r, mode), Itself());
    } else {
      var (front, id) := (ids[..|ids| - 1], ids[|ids| - 1]);
      SurvivorsInOrder(r, mode, front);
      Sorting.FilterOneMore(front, Keeping(r, mode), Itself(), Survivors(r, mode, front), id);
      assert ids == front + [id];
    }
  }

  lemma {:induction false} PresentInOrder(ids: seq<string>, among: seq<string>)
    ensures Sorting.Filtered(ids, Among(among), Itself(), Present(ids, among))
    ensures Present(ids, among) != [] <==> exists id :: id in ids && id in among
  {
    hide Sorting.Filtered;
    if ids == [] {
      Sorting.NothingFiltered(Among(among), Itself());
    } else {
      var (front, id) := (ids[..|ids| - 1], ids[|ids| - 1]);
      PresentInOrder(front, among);
      Sorting.FilterOneMore(front, Among(among), Itself(), Present(front, among), id);
      assert ids == front + [id];
    }
  }

  /** The groups left are those with a member left, in order, each cut down to its members left, in order. */
  lemma {:induction false} GroupsInOrder(groups: seq<seq<string>>, among: seq<string>)
    ensures Sorting.Filtered(groups, AnyAmong(among), ThoseAmong(among), PresentGroups(groups, among))
  {
    hide Sorting.Filtered, Present;
    if groups == [] {
      Sorting.NothingFiltered(AnyAmong(among), ThoseAmong(among));
    } else {
      var (front, group) := (groups[..|groups| - 1], groups[|groups| - 1]);
      GroupsInOrder(front, among);
      PresentInOrder(group, among);
      Sorting.FilterOneMore(front, AnyAmong(among), ThoseAmong(among), PresentGroups(front, among), group);
      assert groups == front + [group];
    }
  }

  /** A role in a mode: offered exactly if one of its ids is kept; its candidates and its overflow are the kept ids
      in order of preference, its groups what is left of them among the candidates; all else is as configured. */
  lemma RoleInMode(r: Registry, mode: string, name: string)
    requires name in r.roles
    ensures var role := r.roles[name];
            name in RolesSeen(r, mode) <==> exists id :: (id in role.candidates || id in role.overflow) && Kept(r, mode, id)
    ensures name in RolesSeen(r, mode) ==>
              var (role, seen) := (r.roles[name], RolesSeen(r, mode)[name]);
              && Sorting.Filtered(role.candidates, Keeping(r, mode), Itself(), seen.candidates)
              && Sorting.Filtered(role.overflow, Keeping(r, mode), Itself(), seen.overflow)
              && Sorting.Filtered(role.balanceGroups, AnyAmong(seen.candidates), ThoseAmong(seen.candidates), seen.balanceGroups)
              && seen == Role(role.locality, role.capabilities, role.apiClass, seen.candidates, role.onEmpty, seen.overflow,
                              role.balance, seen.balanceGroups)
  {
    hide Sorting.Filtered, Kept, Present, Survivors, PresentGroups;
    var role := r.roles[name];
    SurvivorsAre(r, mode, role.candidates);
    SurvivorsAre(r, mode, role.overflow);
    SurvivorsInOrder(r, mode, role.candidates);
    SurvivorsInOrder(r, mode, role.overflow);
    GroupsInOrder(role.balanceGroups, Survivors(r, mode, role.candidates));
    var seen := RoleSeen(r, mode, role);
    if id :| (id in role.candidates || id in role.overflow) && Kept(r, mode, id) {
      assert id in seen.candidates || id in seen.overflow;
    }
    if seen.candidates != [] {
      assert seen.candidates[0] in seen.candidates;
    }
    if seen.overflow != [] {
      assert seen.overflow[0] in seen.overflow;
    }
  }

  method Keep(r: Registry, mode: string, active: map<string, ModelDef>, ids: seq<string>) returns (out: seq<string>)
    requires active == ActiveModels(r, mode)
    ensures out == Survivors(r, mode, ids)
  {
    out := [];
    for i := 0 to |ids|
      invariant out == Survivors(r, mode, ids[..i])
    {
      assert ids[..i + 1][..i] == ids[..i];
      if ids[i] in active {
        out := out + [ids[i]];
      } else if ids[i] !in r.models {
        var found := DiscoveredMember(r, ids[i]);
        if found.Some? {
          out := out + [ids[i]];
        }
      }
    }
    assert ids[..|ids|] == ids;
  }

  method KeepGroups(groups: seq<seq<string>>, candidates: seq<string>) returns (out: seq<seq<string>>)
    ensures out == PresentGroups(groups, candidates)
  {
    out := [];
    for g := 0 to |groups|
      invariant out == PresentGroups(groups[..g], candidates)
    {
      assert groups[..g + 1][..g] == groups[..g];
      var kept: seq<string> := [];
      for i := 0 to |groups[g]|
        invariant kept == Present(groups[g][..i], candidates)
      {
        assert groups[g][..i + 1][..i] == groups[g][..i];
        if groups[g][i] in candidates {
          kept := kept + [groups[g][i]];
        }
      }
      assert groups[g][..|groups[g]|] == groups[g];
      if kept != [] {
        out := out + [kept];
      }
    }
    assert groups[..|groups|] == groups;
  }

  method RolesForMode(r: Registry, mode: string) returns (out: map<string, Role>)
    ensures out == RolesSeen(r, mode)
  {
    var active := ModelsForMode(r, mode);
    out := map[];
    var todo := r.roles.Keys;
    while todo != {}
      invariant todo <= r.roles.Keys
      invariant forall name :: name in out <==> name in RolesSeen(r, mode) && name !in todo
      invariant forall name | name in out :: out[name] == RoleSeen(r, mode, r.roles[name])
      decreases todo
    {
      var name := Sorting.Pick(todo);
      var role := r.roles[name];
      var candidates := Keep(r, mode, active, role.candidates);
      var overflow := Keep(r, mode, active, role.overflow);
      var groups := KeepGroups(role.balanceGroups, candidates);
      if candidates != [] || overflow != [] {
        out := out[name := role.(candidates := candidates, overflow := overflow, balanceGroups := groups)];
      }
      todo := todo - {name};
    }
  }
}
