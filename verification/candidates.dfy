/** What a request for a role or a chain may be tried on, and in which order
    (internal/router/roles.go, internal/router/availability.go). */
module Candidates {
  import opened RequestDefaults
  import opened Registries

  /** One entry of a preference order; chain names the fallback chain it belongs to, "" if none. */
  datatype Candidate = Candidate(id: string, overflow: bool, chain: string)

  /** What can be named: the entries of the mode, and what discovery adopted. */
  datatype Catalog = Catalog(active: map<string, ModelDef>, discovered: map<string, ModelDef>)

  function Lookup(c: Catalog, id: string): Option<ModelDef> {
    if id in c.active then Some(c.active[id])
    else if id in c.discovered then Some(c.discovered[id])
    else None
  }

  // ----- a role's order -----------------------------------------------------------------

  function Plain(ids: seq<string>, overflow: bool): seq<Candidate> {
    seq(|ids|, i requires 0 <= i < |ids| => Candidate(ids[i], overflow, ""))
  }

  /** The candidates, then the overflow list if the role opted into overflowing. */
  function RoleList(role: Role): seq<Candidate> {
    Plain(role.candidates, false) + if role.onEmpty.OverflowTo? then Plain(role.overflow, true) else []
  }

  /** A role's order, place by place: the candidates as preferred, none of them overflow; then, if the role opted
      into it, the overflow list; no place belongs to a chain yet. */
  lemma RoleListSays(role: Role)
    ensures var (list, n) := (RoleList(role), |role.candidates|);
            && |list| == n + (if role.onEmpty.OverflowTo? then |role.overflow| else 0)
            && (forall k | 0 <= k < n :: list[k] == Candidate(role.candidates[k], false, ""))
            && (forall k | n <= k < |list| :: list[k] == Candidate(role.overflow[k - n], true, ""))
  {
  }

  method RoleOrder(role: Role) returns (out: seq<Candidate>)
    ensures out == RoleList(role)
  {
    out := [];
    for i := 0 to |role.candidates|
      invariant out == Plain(role.candidates, false)[..i]
    {
      out := out + [Candidate(role.candidates[i], false, "")];
    }
    if role.onEmpty.OverflowTo? {
      ghost var first := out;
      for i := 0 to |role.overflow|
        invariant out == first + Plain(role.overflow, true)[..i]
      {
        out := out + [Candidate(role.overflow[i], true, "")];
      }
    }
  }

  // ----- chains in place ----------------------------------------------------------------

  function Links(fallbacks: seq<string>, c: Candidate): seq<Candidate> {
    if fallbacks == [] then []
    else Links(fallbacks[..|fallbacks| - 1], c) + [Candidate(fallbacks[|fallbacks| - 1], c.overflow, c.id)]
  }

  /** What a candidate stands for: itself, or the providers of its chain. */
  function Expansion(cat: Catalog, c: Candidate): seq<Candidate> {
    var m := Lookup(cat, c.id);
    if m.None? || m.value.fallbacks == [] then [c]
    else (if IsVirtual(m.value) then [] else [Candidate(c.id, c.overflow, c.id)]) + Links(m.value.fallbacks, c)
  }

  function Expanded(cat: Catalog, order: seq<Candidate>): seq<Candidate> {
    if order == [] then [] else Expanded(cat, order[..|order| - 1]) + Expansion(cat, order[|order| - 1])
  }

  method ExpandOne(cat: Catalog, c: Candidate) returns (out: seq<Candidate>)
    ensures out == Expansion(cat, c)
  {
    var m := Lookup(cat, c.id);
    if m.None? || m.value.fallbacks == [] {
      return [c];
    }
    out := if IsVirtual(m.value) then [] else [Candidate(c.id, c.overflow, c.id)];
    ghost var own := out;
    for k := 0 to |m.value.fallbacks|
      invariant out == own + Links(m.value.fallbacks[..k], c)
    {
      assert m.value.fallbacks[..k + 1][..k] == m.value.fallbacks[..k];
      out := out + [Candidate(m.value.fallbacks[k], c.overflow, c.id)];
    }
    assert m.value.fallbacks[..|m.value.fallbacks|] == m.value.fallbacks;
  }

  method ExpandChains(cat: Catalog, order: seq<Candidate>) returns (out: seq<Candidate>)
    ensures out == Expanded(cat, order)
  {
    hide Expansion;
    out := [];
    for i := 0 to |order|
      invariant out == Expanded(cat, order[..i])
    {
      assert order[..i + 1][..i] == order[..i];
      var providers := ExpandOne(cat, order[i]);
      out := out + providers;
    }
    assert order[..|order|] == order;
  }

  lemma {:induction false} LinksMembers(fallbacks: seq<string>, c: Candidate, x: Candidate)
    ensures x in Links(fallbacks, c) <==> x.id in fallbacks && x.overflow == c.overflow && x.chain == c.id
  {
    if fallbacks != [] {
      LinksMembers(fallbacks[..|fallbacks| - 1], c, x);
      assert fallbacks == fallbacks[..|fallbacks| - 1] + [fallbacks[|fallbacks| - 1]];
    }
  }

  lemma {:induction false} LinksSay(fallbacks: seq<string>, c: Candidate)
    ensures |Links(fallbacks, c)| == |fallbacks|
    ensures forall k | 0 <= k < |fallbacks| :: Links(fallbacks, c)[k] == Candidate(fallbacks[k], c.overflow, c.id)
  {
    if fallbacks != [] {
      LinksSay(fallbacks[..|fallbacks| - 1], c);
    }
  }

  /** These candidates are a chain's providers in order: the entry itself first, if it has a backend of its own, then
      its fallbacks as declared; all under the chain's label, all as near or far as the chain was listed. */
  predicate Providers(out: seq<Candidate>, m: ModelDef, id: string, overflow: bool) {
    var own := if m.apiBase != "" || m.node != "" || m.multiNode then 1 else 0;
    && |out| == own + |m.fallbacks|
    && (own == 1 ==> out[0].id == id)
    && (forall k | 0 <= k < |m.fallbacks| :: out[own + k].id == m.fallbacks[k])
    && (forall k | 0 <= k < |out| :: out[k].chain == id && out[k].overflow == overflow)
  }

  /** A candidate stands for itself, unless it names an entry with fallbacks: then for its providers, in order. */
  lemma ExpansionSays(cat: Catalog, c: Candidate)
    ensures var (m, out) := (Lookup(cat, c.id), Expansion(cat, c));
            if m.Some? && m.value.fallbacks != [] then Providers(out, m.value, c.id, c.overflow) else out == [c]
  {
    var m := Lookup(cat, c.id);
    hide Providers, Links, Lookup;
    if m.Some? && m.value.fallbacks != [] {
      ProvidersOf(m.value, c);
    }
  }

  lemma ProvidersOf(m: ModelDef, c: Candidate)
    requires m.fallbacks != []
    ensures Providers((if IsVirtual(m) then [] else [Candidate(c.id, c.overflow, c.id)]) + Links(m.fallbacks, c), m, c.id, c.overflow)
  {
    LinksSay(m.fallbacks, c);
    hide Links;
    var links := Links(m.fallbacks, c);
    if IsVirtual(m) {
      assert [] + links == links;
    }
  }

  /** The expansion of a list is the expansions of its members, one after the other. */
  lemma {:induction false} ExpandedAppends(cat: Catalog, a: seq<Candidate>, b: seq<Candidate>)
    ensures Expanded(cat, a + b) == Expanded(cat, a) + Expanded(cat, b)
    ensures forall c :: Expanded(cat, [c]) == Expansion(cat, c)
  {
    hide Expansion;
    forall c: Candidate
      ensures Expanded(cat, [c]) == Expansion(cat, c)
    {
      assert [c][..0] == [];
    }
    if b == [] {
      assert a + b == a;
    } else {
      var n := |b| - 1;
      ExpandedAppends(cat, a, b[..n]);
      assert (a + b)[..|a| + n] == a + b[..n];
    }
  }

  /** Expansion goes candidate by candidate, so what is reachable does not depend on the order. */
  lemma {:induction false} ExpandedMembers(cat: Catalog, order: seq<Candidate>, c: Candidate)
    ensures c in Expanded(cat, order) <==> exists b :: b in order && c in Expansion(cat, b)
  {
    if order != [] {
      var last := order[|order| - 1];
      ExpandedMembers(cat, order[..|order| - 1], c);
      assert order == order[..|order| - 1] + [last];
    }
  }
}
