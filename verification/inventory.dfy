/** The live inventory: what each upstream base lists, which entries are absent from it, and which listed
    ids become entries of their own (internal/health/inventory.go). */
module Inventories {
  import opened RequestDefaults
  import opened Registries
  import Sorting

  /** A listing by the id the base serves, as the decoder keys it. */
  type Listing = map<string, Listed>

  /** Which base each checked entry is a member of, which base each entry with a backend serves from, and
      which base each discovery source lists. */
  datatype Tables = Tables(member: map<string, string>, serves: map<string, string>, source: seq<string>)

  datatype Base = Base(listing: Option<Listing>, attemptedAt: Option<int>, failing: bool, inflight: bool)

  /** An adopted entry: its definition, its source, and how many listings in a row left it out. */
  datatype Found = Found(def: ModelDef, source: nat, misses: nat)

  const RETIRE_AFTER := 2

  predicate ReservedName(r: Registry, name: string) {
    name in r.models || name in r.roles || exists id :: id in r.models && name in r.models[id].aliases
  }

  /** Some entry, enabled or not, already routes to this id at this base. */
  predicate Serves(r: Registry, t: Tables, root: string, pid: string) {
    exists id :: id in t.serves && t.serves[id] == root && id in r.models && BackendName(r.models[id].hfRepo) == pid
  }

  /** The source's listing offers this id for adoption. */
  predicate Offers(r: Registry, t: Tables, i: nat, l: Listing, pid: string)
    requires i < |r.discovery| == |t.source|
  {
    && pid in l && Adopts(r, r.discovery[i], pid) && !Serves(r, t, t.source[i], pid)
    && !ReservedName(r, r.discovery[i].prefix + pid)
  }

  // ----- one listing against the adopted entries ----------------------------------------

  predicate OffersName(r: Registry, t: Tables, i: nat, l: Listing, full: string)
    requires i < |r.discovery| == |t.source|
  {
    var prefix := r.discovery[i].prefix;
    prefix <= full && Offers(r, t, i, l, full[|prefix|..])
  }

  function Refreshed(r: Registry, i: nat, lm: Listed, was: Option<Found>): Found
    requires i < |r.discovery|
  {
    Found(Entry(r.discovery[i], lm), if was.Some? then was.value.source else i, 0)
  }

  function At(found: map<string, Found>, full: string): Option<Found> {
    if full in found then Some(found[full]) else None
  }

  /** After adoption: every offered id is there, refreshed; nothing else changed. */
  ghost predicate Adopted(r: Registry, t: Tables, i: nat, l: Listing, before: map<string, Found>, after: map<string, Found>)
    requires i < |r.discovery| == |t.source|
  {
    forall full: string :: AdoptedAt(r, t, i, l, before, after, full)
  }

  ghost predicate AdoptedAt(r: Registry, t: Tables, i: nat, l: Listing, before: map<string, Found>, after: map<string, Found>, full: string)
    requires i < |r.discovery| == |t.source|
  {
    At(after, full) ==
    if OffersName(r, t, i, l, full) then Some(Refreshed(r, i, l[full[|r.discovery[i].prefix|..]], At(before, full)))
    else At(before, full)
  }

  /** After the misses are counted: the source's entries that were not offered missed once more, and are
      gone at the limit. */
  ghost predicate Missed(r: Registry, t: Tables, i: nat, l: Listing, before: map<string, Found>, after: map<string, Found>)
    requires i < |r.discovery| == |t.source|
  {
    forall full: string :: MissedAt(r, t, i, l, before, after, full)
  }

  ghost predicate MissedAt(r: Registry, t: Tables, i: nat, l: Listing, before: map<string, Found>, after: map<string, Found>, full: string)
    requires i < |r.discovery| == |t.source|
  {
    At(after, full) == AfterMiss(r, t, i, l, full, At(before, full))
  }

  /** TrimPrefix: a name without the prefix stays as it is. */
  function Trimmed(full: string, prefix: string): string {
    if prefix <= full then full[|prefix|..] else full
  }

  /** The entry is still listed where it came from. */
  predicate StillListed(r: Registry, t: Tables, i: nat, l: Listing, full: string)
    requires i < |r.discovery| == |t.source|
  {
    var pid := Trimmed(full, r.discovery[i].prefix);
    pid in l && Adopts(r, r.discovery[i], pid) && !Serves(r, t, t.source[i], pid)
  }

  function AfterMiss(r: Registry, t: Tables, i: nat, l: Listing, full: string, was: Option<Found>): Option<Found>
    requires i < |r.discovery| == |t.source|
  {
    if was.None? || was.value.source != i || StillListed(r, t, i, l, full) then was
    else if was.value.misses + 1 >= RETIRE_AFTER then None
    else Some(was.value.(misses := was.value.misses + 1))
  }

  method AdoptListed(r: Registry, t: Tables, i: nat, l: Listing, found: map<string, Found>) returns (out: map<string, Found>)
    requires i < |r.discovery| == |t.source|
    ensures Adopted(r, t, i, l, found, out)
  {
    hide Adopts, Serves, ReservedName, Entry;
    out := found;
    var todo := l.Keys;
    var prefix := r.discovery[i].prefix;
    while todo != {}
      invariant todo <= l.Keys
      invariant forall full: string ::
                  At(out, full) ==
                  if OffersName(r, t, i, l, full) && full[|prefix|..] !in todo
                  then Some(Refreshed(r, i, l[full[|prefix|..]], At(found, full))) else At(found, full)
      decreases todo
    {
      var pid := Sorting.Pick(todo);
      todo := todo - {pid};
      var full := prefix + pid;
      assert full[|prefix|..] == pid;
      assert forall other: string | prefix <= other && other[|prefix|..] == pid :: other == prefix + pid;
      if Adopts(r, r.discovery[i], pid) && !Serves(r, t, t.source[i], pid) && !ReservedName(r, full) {
        if full in out {
          out := out[full := out[full].(def := Entry(r.discovery[i], l[pid]), misses := 0)];
        } else {
          out := out[full := Found(Entry(r.discovery[i], l[pid]), i, 0)];
        }
      }
    }
  }

  method CountMisses(r: Registry, t: Tables, i: nat, l: Listing, found: map<string, Found>) returns (out: map<string, Found>)
    requires i < |r.discovery| == |t.source|
    ensures Missed(r, t, i, l, found, out)
  {
    hide StillListed;
    out := found;
    var todo := found.Keys;
    while todo != {}
      invariant todo <= found.Keys
      invariant forall full: string :: At(out, full) == if full in todo then At(found, full) else AfterMiss(r, t, i, l, full, At(found, full))
      decreases todo
    {
      var full := Sorting.Pick(todo);
      todo := todo - {full};
      assert At(out, full) == At(found, full);
      var e := found[full];
      if e.source != i || StillListed(r, t, i, l, full) {
        continue;
      }
      if e.misses + 1 >= RETIRE_AFTER {
        out := out - {full};
      } else {
        out := out[full := e.(misses := e.misses + 1)];
      }
    }
  }

  // ----- the life of an adopted entry ---------------------------------------------------

  /** What the listings of its base so far say of an id: it is there if one of the last two offered it,
      described as the newer of them describes it, with a miss if that is not the last. */
  function Expected(r: Registry, t: Tables, i: nat, log: seq<Listing>, pid: string): Option<Found>
    requires i < |r.discovery| == |t.source|
  {
    var n := |log|;
    if n >= 1 && Offers(r, t, i, log[n - 1], pid) then Some(Found(Entry(r.discovery[i], log[n - 1][pid]), i, 0))
    else if n >= 2 && Offers(r, t, i, log[n - 2], pid) then Some(Found(Entry(r.discovery[i], log[n - 2][pid]), i, 1))
    else None
  }

  /** One good listing of one base. */
  datatype Heard = Heard(root: string, listing: Listing)

  /** The listings of this base, oldest first. */
  function LogOf(history: seq<Heard>, root: string): seq<Listing> {
    if history == [] then []
    else
      var (before, h) := (LogOf(history[..|history| - 1], root), history[|history| - 1]);
      if h.root == root then before + [h.listing] else before
  }

  lemma LogMore(history: seq<Heard>, h: Heard, root: string)
    ensures LogOf(history + [h], root) == if h.root == root then LogOf(history, root) + [h.listing] else LogOf(history, root)
  {
    assert (history + [h])[..|history|] == history;
  }

  /** What one source makes of one name. */
  function SourceStep(r: Registry, t: Tables, i: nat, l: Listing, full: string, was: Option<Found>): Option<Found>
    requires i < |r.discovery| == |t.source|
  {
    AfterMiss(r, t, i, l, full,
              if OffersName(r, t, i, l, full) then Some(Refreshed(r, i, l[full[|r.discovery[i].prefix|..]], was)) else was)
  }

  /** The first n sources take their turn if the listing is of their base. */
  function SourcesStep(r: Registry, t: Tables, h: Heard, n: nat, full: string, was: Option<Found>): Option<Found>
    requires n <= |r.discovery| == |t.source|
  {
    if n == 0 then was
    else
      var mid := SourcesStep(r, t, h, n - 1, full, was);
      if t.source[n - 1] == h.root then SourceStep(r, t, n - 1, h.listing, full, mid) else mid
  }

  /** The entry of this name after all these listings. */
  function Life(r: Registry, t: Tables, history: seq<Heard>, full: string): Option<Found>
    requires |r.discovery| == |t.source|
  {
    if history == [] then None
    else SourcesStep(r, t, history[|history| - 1], |t.source|, full, Life(r, t, history[..|history| - 1], full))
  }

  /** The decoder keys a listing by the ids themselves and skips empty ones. */
  predicate Keyed(l: Listing) {
    forall id | id in l :: l[id].id == id && id != ""
  }

  predicate AllKeyed(history: seq<Heard>) {
    forall k | 0 <= k < |history| :: Keyed(history[k].listing)
  }

  /** Source i adopts this name whenever its base lists it. */
  predicate CanAdopt(r: Registry, t: Tables, i: nat, full: string)
    requires i < |r.discovery| == |t.source|
  {
    var prefix := r.discovery[i].prefix;
    prefix <= full && full != prefix && !ReservedName(r, full) &&
    Adopts(r, r.discovery[i], full[|prefix|..]) && !Serves(r, t, t.source[i], full[|prefix|..])
  }

  lemma OfferedIsAdoptable(r: Registry, t: Tables, i: nat, l: Listing, full: string)
    requires i < |r.discovery| == |t.source| && Keyed(l) && OffersName(r, t, i, l, full)
    ensures CanAdopt(r, t, i, full)
  {
    var prefix := r.discovery[i].prefix;
    assert prefix + full[|prefix|..] == full;
    hide Adopts, Serves, ReservedName;
  }

  predicate BothAdopt(r: Registry, t: Tables, i: nat, j: nat, full: string)
    requires i < |r.discovery| == |t.source| && j < |r.discovery|
  {
    CanAdopt(r, t, i, full) && CanAdopt(r, t, j, full)
  }

  /** No name can be adopted from two sources. */
  ghost predicate OneAdopter(r: Registry, t: Tables)
    requires |r.discovery| == |t.source|
  {
    forall i: nat, j: nat, full: string | i < j < |r.discovery| :: !BothAdopt(r, t, i, j, full)
  }

  lemma NotBoth(r: Registry, t: Tables, i: nat, j: nat, full: string)
    requires |r.discovery| == |t.source| && OneAdopter(r, t) && i < j < |r.discovery|
    ensures !(CanAdopt(r, t, i, full) && CanAdopt(r, t, j, full))
  {
    hide CanAdopt;
    assert !BothAdopt(r, t, i, j, full);
  }

  lemma SoleAdopter(r: Registry, t: Tables, i: nat, j: nat, full: string)
    requires |r.discovery| == |t.source| && OneAdopter(r, t) && i < |r.discovery| && j < |r.discovery|
    requires CanAdopt(r, t, i, full) && CanAdopt(r, t, j, full)
    ensures i == j
  {
    hide CanAdopt, OneAdopter;
    if i < j {
      NotBoth(r, t, i, j, full);
    } else if j < i {
      NotBoth(r, t, j, i, full);
    }
  }

  lemma AdoptableIsUnder(r: Registry, t: Tables, i: nat, full: string)
    requires i < |r.discovery| == |t.source| && CanAdopt(r, t, i, full)
    ensures r.discovery[i].prefix <= full
  {
  }

  predicate Starts(r: Registry, i: int, j: int)
    requires 0 <= i < |r.discovery| && 0 <= j < |r.discovery|
  {
    r.discovery[i].prefix <= r.discovery[j].prefix
  }

  /** No source's prefix starts another's. */
  predicate PrefixFree(r: Registry) {
    forall i, j | 0 <= i < |r.discovery| && 0 <= j < |r.discovery| && i != j :: !Starts(r, i, j)
  }

  lemma OnePrefix(r: Registry, i: nat, j: nat, full: string)
    requires PrefixFree(r) && i < |r.discovery| && j < |r.discovery|
    requires r.discovery[i].prefix <= full && r.discovery[j].prefix <= full
    ensures i == j
  {
    PrefixesNest(r.discovery[i].prefix, r.discovery[j].prefix, full);
    assert i == j || !Starts(r, i, j);
    assert i == j || !Starts(r, j, i);
  }

  lemma PrefixesNest(p: string, q: string, full: string)
    requires p <= full && q <= full
    ensures p <= q || q <= p
  {
    if |p| <= |q| {
      assert p == full[..|p|] == q[..|p|];
    } else {
      assert q == full[..|q|] == p[..|q|];
    }
  }

  /** Prefixes free of one another are enough. */
  lemma PrefixFreeIsEnough(r: Registry, t: Tables)
    requires |r.discovery| == |t.source| && PrefixFree(r)
    ensures OneAdopter(r, t)
  {
    hide PrefixFree, Adopts, Serves, ReservedName;
    forall i: nat, j: nat, full: string | i < j < |r.discovery|
      ensures !BothAdopt(r, t, i, j, full)
    {
      if BothAdopt(r, t, i, j, full) {
        OnePrefix(r, i, j, full);
      }
    }
  }

  /** The entry of a name this source can adopt is what the listings of its base say. */
  ghost predicate TracksAt(r: Registry, t: Tables, history: seq<Heard>, i: nat, full: string)
    requires i < |r.discovery| == |t.source|
  {
    CanAdopt(r, t, i, full) ==>
      Life(r, t, history, full) == Expected(r, t, i, LogOf(history, t.source[i]), full[|r.discovery[i].prefix|..])
  }

  ghost predicate Tracks(r: Registry, t: Tables, history: seq<Heard>)
    requires |r.discovery| == |t.source|
  {
    forall i: nat, full: string | i < |r.discovery| :: TracksAt(r, t, history, i, full)
  }

  /** A source that cannot adopt the name leaves it alone. */
  lemma OthersStep(r: Registry, t: Tables, i: nat, l: Listing, full: string, was: Option<Found>)
    requires i < |r.discovery| == |t.source| && Keyed(l) && !CanAdopt(r, t, i, full) && (was.Some? ==> was.value.source != i)
    ensures SourceStep(r, t, i, l, full, was) == was
  {
    if OffersName(r, t, i, l, full) {
      OfferedIsAdoptable(r, t, i, l, full);
    }
    hide CanAdopt, OffersName, StillListed;
  }

  /** One listing takes a name that only this source can adopt one listing further. */
  lemma {:induction false} TracksStep(r: Registry, t: Tables, h: Heard, n: nat, i: nat, full: string, log: seq<Listing>, was: Option<Found>)
    requires i < |r.discovery| == |t.source| && n <= |t.source| && OneAdopter(r, t) && Keyed(h.listing) && CanAdopt(r, t, i, full)
    requires was == Expected(r, t, i, log, full[|r.discovery[i].prefix|..])
    ensures SourcesStep(r, t, h, n, full, was) ==
            if i < n && t.source[i] == h.root then Expected(r, t, i, log + [h.listing], full[|r.discovery[i].prefix|..]) else was
    decreases n
  {
    hide Expected, SourceStep, CanAdopt, OneAdopter;
    AdoptableIsUnder(r, t, i, full);
    if n > 0 {
      TracksStep(r, t, h, n - 1, i, full, log, was);
      var mid := SourcesStep(r, t, h, n - 1, full, was);
      if t.source[n - 1] == h.root {
        if n - 1 == i {
          OwnStep(r, t, i, log, h.listing, full, was);
        } else {
          if CanAdopt(r, t, n - 1, full) {
            SoleAdopter(r, t, n - 1, i, full);
          }
          ExpectedSource(r, t, i, log, full[|r.discovery[i].prefix|..]);
          ExpectedSource(r, t, i, log + [h.listing], full[|r.discovery[i].prefix|..]);
          OthersStep(r, t, n - 1, h.listing, full, mid);
        }
      }
    }
  }

  lemma ExpectedSource(r: Registry, t: Tables, i: nat, log: seq<Listing>, pid: string)
    requires i < |r.discovery| == |t.source|
    ensures var e := Expected(r, t, i, log, pid); e.Some? ==> e.value.source == i
  {
    hide Offers, Entry;
  }

  /** With one adopter per name, every history is tracked. */
  lemma {:induction false} EveryHistoryTracks(r: Registry, t: Tables, history: seq<Heard>, i: nat, full: string)
    requires i < |r.discovery| == |t.source| && OneAdopter(r, t) && AllKeyed(history)
    ensures TracksAt(r, t, history, i, full)
  {
    hide Expected, CanAdopt, OneAdopter, SourcesStep;
    if CanAdopt(r, t, i, full) {
      AdoptableIsUnder(r, t, i, full);
      var pid := full[|r.discovery[i].prefix|..];
      if history == [] {
        NothingExpected(r, t, i, pid);
      } else {
        var (front, h) := (history[..|history| - 1], history[|history| - 1]);
        EveryHistoryTracks(r, t, front, i, full);
        assert history == front + [h];
        LogMore(front, h, t.source[i]);
        TracksStep(r, t, h, |t.source|, i, full, LogOf(front, t.source[i]), Life(r, t, front, full));
      }
    }
  }

  lemma NothingExpected(r: Registry, t: Tables, i: nat, pid: string)
    requires i < |r.discovery| == |t.source|
    ensures Expected(r, t, i, [], pid).None?
  {
  }

  /** A name two sources can adopt: their two bases list it one after the other, and whatever entry it has
      now, it cannot be what both listings say. */
  lemma TwoAdoptersClash(r: Registry, t: Tables, i: nat, j: nat, full: string) returns (history: seq<Heard>)
    requires i < j < |r.discovery| == |t.source| && BothAdopt(r, t, i, j, full)
    ensures AllKeyed(history) && |history| == 2 && !(TracksAt(r, t, history, i, full) && TracksAt(r, t, history, j, full))
  {
    hide CanAdopt, Life, Expected, Offers;
    AdoptableIsUnder(r, t, i, full);
    AdoptableIsUnder(r, t, j, full);
    var (pi, pj) := (full[|r.discovery[i].prefix|..], full[|r.discovery[j].prefix|..]);
    var l: Listing := map[pi := Listed(pi, 0, false, false, false), pj := Listed(pj, 0, false, false, false)];
    history := [Heard(t.source[i], l), Heard(t.source[j], l)];
    AdoptableIsOffered(r, t, i, full, l);
    AdoptableIsOffered(r, t, j, full, l);
    HeardLast(t.source[i], t.source[j], l, t.source[i]);
    HeardLast(t.source[i], t.source[j], l, t.source[j]);
    LastIsExpected(r, t, i, LogOf(history, t.source[i]), pi);
    LastIsExpected(r, t, j, LogOf(history, t.source[j]), pj);
    hide LogOf;
  }

  lemma AdoptableIsOffered(r: Registry, t: Tables, i: nat, full: string, l: Listing)
    requires i < |r.discovery| == |t.source| && CanAdopt(r, t, i, full) && full[|r.discovery[i].prefix|..] in l
    ensures full[|r.discovery[i].prefix|..] != "" && Offers(r, t, i, l, full[|r.discovery[i].prefix|..])
  {
    assert r.discovery[i].prefix + full[|r.discovery[i].prefix|..] == full;
    hide Adopts, Serves, ReservedName;
  }

  lemma HeardLast(a: string, b: string, l: Listing, root: string)
    requires root == a || root == b
    ensures var log := LogOf([Heard(a, l), Heard(b, l)], root); log != [] && log[|log| - 1] == l
  {
    hide LogOf;
    var (h, k) := (Heard(a, l), Heard(b, l));
    LogMore([], h, root);
    LogMore([h], k, root);
    assert [] + [h] == [h] && [h] + [k] == [h, k];
  }

  lemma LastIsExpected(r: Registry, t: Tables, i: nat, log: seq<Listing>, pid: string)
    requires i < |r.discovery| == |t.source| && log != [] && Offers(r, t, i, log[|log| - 1], pid)
    ensures var e := Expected(r, t, i, log, pid); e.Some? && e.value.source == i
  {
    hide Offers;
  }

  /** The entries are what the listings of their bases say, under every history, exactly if no name can be
      adopted from two sources. */
  lemma LifeCycleExactly(r: Registry, t: Tables)
    requires |r.discovery| == |t.source|
    ensures (forall history | AllKeyed(history) :: Tracks(r, t, history)) <==> OneAdopter(r, t)
  {
    hide TracksAt, BothAdopt, AllKeyed;
    if OneAdopter(r, t) {
      forall history | AllKeyed(history)
        ensures Tracks(r, t, history)
      {
        forall i: nat, full: string | i < |r.discovery|
          ensures TracksAt(r, t, history, i, full)
        {
          EveryHistoryTracks(r, t, history, i, full);
        }
      }
    } else {
      var i: nat, j: nat, full: string :| i < j < |r.discovery| && BothAdopt(r, t, i, j, full);
      var history := TwoAdoptersClash(r, t, i, j, full);
      assert !Tracks(r, t, history);
    }
  }

  lemma OwnStep(r: Registry, t: Tables, i: nat, log: seq<Listing>, l: Listing, full: string, was: Option<Found>)
    requires i < |r.discovery| == |t.source| && CanAdopt(r, t, i, full)
    requires was == Expected(r, t, i, log, full[|r.discovery[i].prefix|..])
    ensures SourceStep(r, t, i, l, full, was) == Expected(r, t, i, log + [l], full[|r.discovery[i].prefix|..])
  {
    assert r.discovery[i].prefix + full[|r.discovery[i].prefix|..] == full;
    hide Adopts, Serves, ReservedName, Entry;
  }

  /** Whatever the prefixes: an adopted entry is of some source, under its prefix, never a reserved name
      and never an id that an entry already serves at the source's base. */
  ghost predicate Safe(r: Registry, t: Tables, found: map<string, Found>)
    requires |r.discovery| == |t.source|
  {
    forall full | full in found :: SafeAt(r, t, full, found[full])
  }

  /** The definition is what some source that adopts it makes of a listing of this very name. */
  ghost predicate Sourced(r: Registry, full: string, def: ModelDef) {
    exists i: nat, lm: Listed :: i < |r.discovery| && MadeBy(r, i, lm, full, def)
  }

  predicate MadeBy(r: Registry, i: nat, lm: Listed, full: string, def: ModelDef)
    requires i < |r.discovery|
  {
    full == r.discovery[i].prefix + lm.id && lm.id != "" && Adopts(r, r.discovery[i], lm.id) && def == Entry(r.discovery[i], lm)
  }

  ghost predicate AllSourced(r: Registry, found: map<string, Found>) {
    forall full | full in found :: Sourced(r, full, found[full].def)
  }

  lemma SourcedStep(r: Registry, t: Tables, i: nat, l: Listing, before: map<string, Found>, mid: map<string, Found>, after: map<string, Found>)
    requires i < |r.discovery| == |t.source| && AllSourced(r, before) && Keyed(l)
    requires Adopted(r, t, i, l, before, mid) && Missed(r, t, i, l, mid, after)
    ensures AllSourced(r, after)
  {
    hide Entry, StillListed, Adopts, Serves, ReservedName;
    forall full | full in after
      ensures Sourced(r, full, after[full].def)
    {
      assert AdoptedAt(r, t, i, l, before, mid, full) && MissedAt(r, t, i, l, mid, after, full);
      if OffersName(r, t, i, l, full) {
        var prefix := r.discovery[i].prefix;
        assert prefix + full[|prefix|..] == full;
        SafeName(r, t, i, l, full);
        assert MadeBy(r, i, l[full[|prefix|..]], full, mid[full].def);
      } else {
        assert Sourced(r, full, before[full].def);
      }
    }
  }

  predicate SafeAt(r: Registry, t: Tables, full: string, e: Found)
    requires |r.discovery| == |t.source|
  {
    && e.source < |r.discovery| && r.discovery[e.source].prefix <= full && !ReservedName(r, full)
    && var pid := full[|r.discovery[e.source].prefix|..];
       Adopts(r, r.discovery[e.source], pid) && !Serves(r, t, t.source[e.source], pid)
  }

  lemma SafeStep(r: Registry, t: Tables, i: nat, l: Listing, before: map<string, Found>, mid: map<string, Found>, after: map<string, Found>)
    requires i < |r.discovery| == |t.source| && Safe(r, t, before)
    requires Adopted(r, t, i, l, before, mid) && Missed(r, t, i, l, mid, after)
    ensures Safe(r, t, after)
  {
    forall full | full in after
      ensures SafeAt(r, t, full, after[full])
    {
      assert AdoptedAt(r, t, i, l, before, mid, full) && MissedAt(r, t, i, l, mid, after, full);
      if full in before {
        assert SafeAt(r, t, full, before[full]);
      }
      SafeName(r, t, i, l, full);
      hide Adopts, Serves, ReservedName, Entry, StillListed, Offers;
    }
  }

  lemma SafeName(r: Registry, t: Tables, i: nat, l: Listing, full: string)
    requires i < |r.discovery| == |t.source|
    ensures OffersName(r, t, i, l, full) ==>
              var pid := full[|r.discovery[i].prefix|..];
              r.discovery[i].prefix <= full && !ReservedName(r, full) && Adopts(r, r.discovery[i], pid) && !Serves(r, t, t.source[i], pid)
  {
    if r.discovery[i].prefix <= full {
      assert r.discovery[i].prefix + full[|r.discovery[i].prefix|..] == full;
    }
  }

  function Roots(t: Tables): set<string> {
    set s | s in t.source
  }

  function FlyingOf(flying: map<string, nat>, root: string): nat {
    if root in flying then flying[root] else 0
  }

  // ----- the inventory ------------------------------------------------------------------

  class Inventory {
    const r: Registry
    const t: Tables
    const interval: int
    var bases: map<string, Base>
    var absent: set<string>
    var discovered: map<string, Found>
    /** Every good listing there was, and how many fetches of each base are under way. */
    ghost var history: seq<Heard>
    ghost var flying: map<string, nat>

    ghost predicate Sized() {
      |r.discovery| == |t.source|
    }

    /** At most one fetch of a base is under way, and its mark says whether one is; it shows its last good
        listing. */
    ghost predicate BaseOk(root: string)
      reads this`bases, this`history, this`flying
    {
      root in bases ==>
        && FlyingOf(flying, root) == (if bases[root].inflight then 1 else 0)
        && bases[root].listing == LastOf(LogOf(history, root))
    }

    /** Once its base has a listing, a member is absent exactly if its served name is not in the last good
        one. */
    ghost predicate MemberOk(id: string)
      reads this`absent, this`history
    {
      id in t.member && id in r.models && LogOf(history, t.member[id]) != [] ==>
        (id in absent <==> BackendName(r.models[id].hfRepo) !in LastOf(LogOf(history, t.member[id])).value)
    }

    ghost predicate Valid()
      reads this
    {
      && Sized()
      && (forall root :: BaseOk(root)) && (forall id :: MemberOk(id))
      && Safe(r, t, discovered) && AllSourced(r, discovered)
      && AllKeyed(history) && Lives(r, t, history, discovered)
    }

    constructor (r: Registry, t: Tables, interval: int)
      requires |r.discovery| == |t.source|
      ensures Valid() && this.r == r && this.t == t && history == [] && discovered == map[]
      ensures bases.Keys == t.member.Values + Roots(t)
    {
      this.r, this.t, this.interval := r, t, interval;
      bases := map root | root in t.member.Values + Roots(t) :: Base(None, None, false, false);
      absent, discovered := {}, map[];
      history, flying := [], map[];
    }

    /** The bases to fetch now: exactly those not being fetched and past the interval since they were last
        tried. Each is marked, so that none is fetched twice at once. */
    method DueInventory(now: int) returns (jobs: set<string>)
      requires Valid()
      modifies this`bases, this`flying
      ensures Valid() && bases.Keys == old(bases.Keys)
      ensures forall root :: root in jobs <==> root in bases && Due(old(bases)[root], interval, now)
      ensures forall root | root in bases ::
                Due(old(bases)[root], interval, now) <==>
                  !old(bases)[root].inflight && (old(bases)[root].attemptedAt.None? || old(bases)[root].attemptedAt.value + interval <= now)
      ensures forall root | root in jobs :: bases[root] == old(bases)[root].(inflight := true, attemptedAt := Some(now))
      ensures forall root | root in jobs :: FlyingOf(old(flying), root) == 0 && FlyingOf(flying, root) == 1
      ensures forall root | root in bases && root !in jobs :: bases[root] == old(bases)[root]
    {
      hide Safe, AllSourced, Lives, AllKeyed, Due;
      jobs := {};
      var todo := bases.Keys;
      while todo != {}
        invariant todo <= bases.Keys == old(bases.Keys) && Valid()
        invariant forall root :: root in jobs <==> root in bases && root !in todo && Due(old(bases)[root], interval, now)
        invariant forall root | root in jobs :: FlyingOf(old(flying), root) == 0 && FlyingOf(flying, root) == 1
        invariant forall root | root in jobs :: bases[root] == old(bases)[root].(inflight := true, attemptedAt := Some(now))
        invariant forall root | root in bases && root !in jobs :: bases[root] == old(bases)[root]
        decreases todo
      {
        var root := Sorting.Pick(todo);
        todo := todo - {root};
        assert BaseOk(root) && old(BaseOk(root));
        if Due(bases[root], interval, now) {
          NotInFlight(bases[root], interval, now);
          Mark(root, now);
          jobs := jobs + {root};
        }
      }
      DueSays(old(bases), interval, now);
    }

    method Mark(root: string, now: int)
      requires Valid() && root in bases && !bases[root].inflight
      modifies this`bases, this`flying
      ensures Valid() && flying == old(flying)[root := FlyingOf(old(flying), root) + 1]
      ensures bases == old(bases)[root := old(bases)[root].(inflight := true, attemptedAt := Some(now))]
    {
      hide Safe, AllSourced, Lives, AllKeyed;
      ghost var before := bases;
      assert BaseOk(root);
      bases := bases[root := bases[root].(inflight := true, attemptedAt := Some(now))];
      flying := flying[root := FlyingOf(flying, root) + 1];
      forall other
        ensures BaseOk(other)
      {
        assert old(BaseOk(other));
      }
      forall id
        ensures MemberOk(id)
      {
        assert old(MemberOk(id));
      }
    }

    /** The operator's refresh forgets when the idle bases were last tried, so all of them are due. */
    method ForgetAttempts()
      requires Valid()
      modifies this`bases
      ensures Valid() && bases.Keys == old(bases.Keys)
      ensures forall root | root in bases :: bases[root] == if old(bases)[root].inflight then old(bases)[root] else old(bases)[root].(attemptedAt := None)
    {
      hide Safe, AllSourced, Lives, AllKeyed;
      bases := map root | root in bases :: if bases[root].inflight then bases[root] else bases[root].(attemptedAt := None);
      forall other
        ensures BaseOk(other)
      {
        assert old(BaseOk(other));
      }
      forall id
        ensures MemberOk(id)
      {
        assert old(MemberOk(id));
      }
    }

    /** Folds in the outcome of a fetch under way: a failure keeps the last good listing; a success gives
        the verdicts on the members and on what the sources of this base offer. */
    method ApplyInventory(root: string, result: Option<Listing>)
      requires Valid() && (root in bases ==> bases[root].inflight) && (result.Some? ==> Keyed(result.value))
      modifies this`bases, this`absent, this`discovered, this`history, this`flying
      ensures Valid() && bases.Keys == old(bases.Keys)
      ensures root !in bases ==> history == old(history) && absent == old(absent) && discovered == old(discovered)
      ensures root in bases && result.None? ==> history == old(history) && absent == old(absent) && discovered == old(discovered)
      ensures root in bases && result.Some? ==> history == old(history) + [Heard(root, result.value)]
      ensures root in bases ==>
                && FlyingOf(flying, root) == 0
                && bases[root] == old(bases)[root].(inflight := false, failing := result.None?,
                                                    listing := if result.Some? then result else old(bases)[root].listing)
      ensures forall other | other in bases && other != root :: bases[other] == old(bases)[other]
    {
      if root !in bases {
        return;
      }
      hide Safe, AllSourced, Lives, AllKeyed;
      assert BaseOk(root);
      var b := bases[root].(inflight := false);
      if result.None? {
        Settle(root, b.(failing := true));
      } else {
        Accept(root, b.(failing := false, listing := result), result.value);
      }
    }

    method Accept(root: string, b: Base, l: Listing)
      requires Valid() && root in bases && bases[root].inflight && !b.inflight && b.listing == Some(l) && Keyed(l)
      modifies this`bases, this`absent, this`discovered, this`history, this`flying
      ensures Valid() && bases == old(bases)[root := b] && FlyingOf(old(flying), root) > 0 && flying == old(flying)[root := FlyingOf(old(flying), root) - 1]
      ensures history == old(history) + [Heard(root, l)]
    {
      hide Safe, AllSourced, Lives, AllKeyed, Judged;
      ghost var before := history;
      assert BaseOk(root);
      history := history + [Heard(root, l)];
      KeyedMore(before, Heard(root, l));
      bases := bases[root := b];
      flying := flying[root := FlyingOf(flying, root) - 1];
      absent := JudgeMembers(r, t, root, l, absent);
      ghost var was := discovered;
      discovered := JudgeSources(r, t, root, l, discovered);
      LivesOn(r, t, before, Heard(root, l), was, discovered);
      forall other
        ensures BaseOk(other)
      {
        assert old(BaseOk(other));
        LogMore(before, Heard(root, l), other);
      }
      forall id
        ensures MemberOk(id)
      {
        assert old(MemberOk(id));
        MemberJudged(before, root, l, old(absent), absent, id);
        if id in t.member {
          LogMore(before, Heard(root, l), t.member[id]);
        }
      }
    }

    lemma MemberJudged(before: seq<Heard>, root: string, l: Listing, was: set<string>, now: set<string>, id: string)
      requires Judged(r, t, root, l, was, now, id)
      ensures id in t.member && id in r.models && t.member[id] == root ==>
                (id in now <==> BackendName(r.models[id].hfRepo) !in LastOf(LogOf(before, root) + [l]).value)
      ensures id in t.member && t.member[id] != root ==> (id in now <==> id in was)
    {
    }

    method Settle(root: string, b: Base)
      requires Valid() && root in bases && bases[root].inflight && !b.inflight && b.listing == bases[root].listing
      modifies this`bases, this`flying
      ensures Valid() && bases == old(bases)[root := b] && FlyingOf(old(flying), root) > 0 && flying == old(flying)[root := FlyingOf(old(flying), root) - 1]
    {
      hide Safe, AllSourced, Lives, AllKeyed;
      assert BaseOk(root);
      bases := bases[root := b];
      flying := flying[root := FlyingOf(flying, root) - 1];
      forall other
        ensures BaseOk(other)
      {
        assert old(BaseOk(other));
      }
      forall id
        ensures MemberOk(id)
      {
        assert old(MemberOk(id));
      }
    }
  }

  /** The verdict on one entry: decided by the listing if it is a member of this base, as it was if not. */
  ghost predicate Judged(r: Registry, t: Tables, root: string, l: Listing, before: set<string>, after: set<string>, id: string) {
    id in after <==>
    if id in t.member && t.member[id] == root && id in r.models then BackendName(r.models[id].hfRepo) !in l else id in before
  }

  method JudgeMembers(r: Registry, t: Tables, root: string, l: Listing, absent: set<string>) returns (out: set<string>)
    ensures forall id :: Judged(r, t, root, l, absent, out, id)
  {
    out := absent;
    var todo := t.member.Keys;
    while todo != {}
      invariant todo <= t.member.Keys
      invariant forall id :: if id in todo then (id in out <==> id in absent) else Judged(r, t, root, l, absent, out, id)
      decreases todo
    {
      var id := Sorting.Pick(todo);
      todo := todo - {id};
      if t.member[id] == root && id in r.models {
        var listed := BackendName(r.models[id].hfRepo) in l;
        if !listed && id !in out {
          out := out + {id};
        } else if listed && id in out {
          out := out - {id};
        }
      }
    }
  }

  /** The entries are those the history of listings leaves. */
  ghost predicate Lives(r: Registry, t: Tables, history: seq<Heard>, found: map<string, Found>)
    requires |r.discovery| == |t.source|
  {
    forall full: string :: At(found, full) == Life(r, t, history, full)
  }

  lemma LivesOn(r: Registry, t: Tables, history: seq<Heard>, h: Heard, before: map<string, Found>, after: map<string, Found>)
    requires |r.discovery| == |t.source| && Lives(r, t, history, before)
    requires forall full: string :: At(after, full) == SourcesStep(r, t, h, |t.source|, full, At(before, full))
    ensures Lives(r, t, history + [h], after)
  {
    hide SourcesStep;
    assert (history + [h])[..|history|] == history;
    forall full: string
      ensures At(after, full) == Life(r, t, history + [h], full)
    {
      assert At(before, full) == Life(r, t, history, full);
    }
  }

  lemma KeyedMore(history: seq<Heard>, h: Heard)
    requires AllKeyed(history) && Keyed(h.listing)
    ensures AllKeyed(history + [h])
  {
  }

  /** Every source of the base takes the listing in, in order. */
  method JudgeSources(r: Registry, t: Tables, root: string, l: Listing, found: map<string, Found>) returns (out: map<string, Found>)
    requires |r.discovery| == |t.source| && Safe(r, t, found) && AllSourced(r, found) && Keyed(l)
    ensures Safe(r, t, out) && AllSourced(r, out)
    ensures forall full: string :: At(out, full) == SourcesStep(r, t, Heard(root, l), |t.source|, full, At(found, full))
  {
    hide Safe, AllSourced, Adopted, Missed, SourceStep, Keyed;
    out := found;
    for i := 0 to |t.source|
      invariant Safe(r, t, out) && AllSourced(r, out)
      invariant forall full: string :: At(out, full) == SourcesStep(r, t, Heard(root, l), i, full, At(found, full))
    {
      if t.source[i] == root {
        var adopted := AdoptListed(r, t, i, l, out);
        var counted := CountMisses(r, t, i, l, adopted);
        SafeStep(r, t, i, l, out, adopted, counted);
        SourcedStep(r, t, i, l, out, adopted, counted);
        BothSteps(r, t, i, l, out, adopted, counted);
        out := counted;
      }
    }
  }

  lemma BothSteps(r: Registry, t: Tables, i: nat, l: Listing, before: map<string, Found>, mid: map<string, Found>, after: map<string, Found>)
    requires i < |r.discovery| == |t.source| && Adopted(r, t, i, l, before, mid) && Missed(r, t, i, l, mid, after)
    ensures forall full: string :: At(after, full) == SourceStep(r, t, i, l, full, At(before, full))
  {
    forall full: string
      ensures At(after, full) == SourceStep(r, t, i, l, full, At(before, full))
    {
      assert AdoptedAt(r, t, i, l, before, mid, full) && MissedAt(r, t, i, l, mid, after, full);
    }
    hide Offers, AfterMiss, Entry;
  }

  // ----- what the invariant says --------------------------------------------------------

  /** Listing k is one of the last two, offers the id, and is the newest of them to do so. */
  predicate LastOffer(r: Registry, t: Tables, i: nat, log: seq<Listing>, pid: string, k: nat)
    requires i < |r.discovery| == |t.source|
  {
    && |log| - 2 <= k < |log| && Offers(r, t, i, log[k], pid)
    && (k + 1 < |log| ==> !Offers(r, t, i, log[k + 1], pid))
  }

  /** Source i's base offered this name in its listing k, one of its last two, and not since. */
  ghost predicate Offered(r: Registry, t: Tables, history: seq<Heard>, full: string, i: nat, k: nat)
    requires |r.discovery| == |t.source|
  {
    && i < |r.discovery| && r.discovery[i].prefix <= full
    && LastOffer(r, t, i, LogOf(history, t.source[i]), full[|r.discovery[i].prefix|..], k)
  }

  lemma {:induction false} SourcesAdopt(r: Registry, t: Tables, h: Heard, n: nat, full: string, was: Option<Found>)
    requires n <= |r.discovery| == |t.source| && Keyed(h.listing)
    requires was.Some? || SourcesStep(r, t, h, n, full, was).Some?
    ensures was.None? ==> exists i: nat :: i < |r.discovery| && CanAdopt(r, t, i, full)
    decreases n
  {
    hide CanAdopt, OffersName, StillListed;
    if was.None? && n > 0 {
      if SourcesStep(r, t, h, n - 1, full, was).Some? {
        SourcesAdopt(r, t, h, n - 1, full, was);
      } else {
        OfferedIsAdoptable(r, t, n - 1, h.listing, full);
      }
    }
  }

  lemma {:induction false} LivingIsAdoptable(r: Registry, t: Tables, history: seq<Heard>, full: string)
    requires |r.discovery| == |t.source| && AllKeyed(history) && Life(r, t, history, full).Some?
    ensures exists i: nat :: i < |r.discovery| && CanAdopt(r, t, i, full)
  {
    hide CanAdopt, SourcesStep;
    var front := history[..|history| - 1];
    if Life(r, t, front, full).Some? {
      LivingIsAdoptable(r, t, front, full);
    } else {
      SourcesAdopt(r, t, history[|history| - 1], |t.source|, full, None);
    }
  }

  /** No entry is adopted against the configuration: some source's prefix begins its name and the rest is an id that
      the source adopts and does not exclude, that no configured entry serves already; and the name is no entry,
      no role and no alias. */
  lemma LivingIsAllowed(r: Registry, t: Tables, history: seq<Heard>, full: string)
    requires |r.discovery| == |t.source| && AllKeyed(history) && Life(r, t, history, full).Some?
    ensures full !in r.models && full !in r.roles && forall id | id in r.models :: full !in r.models[id].aliases
    ensures exists i: nat, pid: string ::
              && i < |r.discovery| && full == r.discovery[i].prefix + pid && pid != ""
              && (forall p | p in r.discovery[i].exclude :: !r.glob(p, pid))
              && (r.discovery[i].adoptAll || exists p :: p in r.discovery[i].adopt && r.glob(p, pid))
              && forall id | id in t.serves && t.serves[id] == t.source[i] && id in r.models :: BackendName(r.models[id].hfRepo) != pid
  {
    LivingIsAdoptable(r, t, history, full);
    hide Life, AllKeyed;
    var i: nat :| i < |r.discovery| && CanAdopt(r, t, i, full);
    var pid := full[|r.discovery[i].prefix|..];
    assert full == r.discovery[i].prefix + pid;
  }

  lemma OfferedInHistory(r: Registry, t: Tables, history: seq<Heard>, full: string, i: nat, k: nat)
    requires |r.discovery| == |t.source| && AllKeyed(history) && Offered(r, t, history, full, i, k)
    ensures CanAdopt(r, t, i, full)
  {
    LogIsKeyed(history, t.source[i]);
    OfferedIsAdoptable(r, t, i, LogOf(history, t.source[i])[k], full);
  }

  lemma {:induction false} LogIsKeyed(history: seq<Heard>, root: string)
    requires AllKeyed(history)
    ensures forall k | 0 <= k < |LogOf(history, root)| :: Keyed(LogOf(history, root)[k])
  {
    hide Keyed;
    if history != [] {
      LogIsKeyed(history[..|history| - 1], root);
    }
  }

  lemma ExpectedIsOffered(r: Registry, t: Tables, i: nat, log: seq<Listing>, pid: string)
    requires i < |r.discovery| == |t.source|
    ensures var e := Expected(r, t, i, log, pid);
            && (e.Some? <==> exists k: nat :: LastOffer(r, t, i, log, pid, k))
            && forall k: nat | LastOffer(r, t, i, log, pid, k) :: pid in log[k] && e.Some? && e.value.def == Entry(r.discovery[i], log[k][pid])
  {
    assert forall l | Offers(r, t, i, l, pid) :: pid in l;
    hide Offers, Entry;
    if |log| >= 1 && Offers(r, t, i, log[|log| - 1], pid) {
      assert LastOffer(r, t, i, log, pid, |log| - 1);
    } else if |log| >= 2 && Offers(r, t, i, log[|log| - 2], pid) {
      assert LastOffer(r, t, i, log, pid, |log| - 2);
    }
  }

  /** With one adopter per name: a name is adopted exactly if one of the last two good listings of a base
      offered it, so it is retired at its second omission in a row and not before; and its definition is what
      the last listing that offered it says. */
  lemma AdoptedExactly(r: Registry, t: Tables, history: seq<Heard>, full: string)
    requires |r.discovery| == |t.source| && OneAdopter(r, t) && AllKeyed(history)
    ensures Life(r, t, history, full).Some? <==> exists i: nat, k: nat :: Offered(r, t, history, full, i, k)
    ensures forall i: nat, k: nat | Offered(r, t, history, full, i, k) ::
              var (log, pid) := (LogOf(history, t.source[i]), full[|r.discovery[i].prefix|..]);
              Life(r, t, history, full).Some? && pid in log[k] && Life(r, t, history, full).value.def == Entry(r.discovery[i], log[k][pid])
  {
    hide Expected, LastOffer, Life, OneAdopter, CanAdopt, AllKeyed, Entry;
    if Life(r, t, history, full).Some? {
      LivingIsAdoptable(r, t, history, full);
      var i: nat :| i < |r.discovery| && CanAdopt(r, t, i, full);
      AdoptableIsUnder(r, t, i, full);
      EveryHistoryTracks(r, t, history, i, full);
      ExpectedIsOffered(r, t, i, LogOf(history, t.source[i]), full[|r.discovery[i].prefix|..]);
      var k: nat :| LastOffer(r, t, i, LogOf(history, t.source[i]), full[|r.discovery[i].prefix|..], k);
      assert Offered(r, t, history, full, i, k);
    }
    forall i: nat, k: nat | Offered(r, t, history, full, i, k)
      ensures var (log, pid) := (LogOf(history, t.source[i]), full[|r.discovery[i].prefix|..]);
              && k < |log| && pid in log[k]
              && Life(r, t, history, full).Some? && Life(r, t, history, full).value.def == Entry(r.discovery[i], log[k][pid])
    {
      OfferedInHistory(r, t, history, full, i, k);
      EveryHistoryTracks(r, t, history, i, full);
      OfferedWithin(r, t, history, full, i, k);
      ExpectedIsOffered(r, t, i, LogOf(history, t.source[i]), full[|r.discovery[i].prefix|..]);
    }
  }

  lemma OfferedWithin(r: Registry, t: Tables, history: seq<Heard>, full: string, i: nat, k: nat)
    requires |r.discovery| == |t.source| && Offered(r, t, history, full, i, k)
    ensures k < |LogOf(history, t.source[i])|
  {
  }

  predicate Due(b: Base, interval: int, now: int) {
    !b.inflight && (b.attemptedAt.None? || now - b.attemptedAt.value >= interval)
  }

  lemma DueSays(bases: map<string, Base>, interval: int, now: int)
    ensures forall root | root in bases ::
              Due(bases[root], interval, now) <==>
                !bases[root].inflight && (bases[root].attemptedAt.None? || bases[root].attemptedAt.value + interval <= now)
  {
  }

  lemma NotInFlight(b: Base, interval: int, now: int)
    requires Due(b, interval, now)
    ensures !b.inflight
  {
  }

  function LastOf(log: seq<Listing>): Option<Listing> {
    if log == [] then None else Some(log[|log| - 1])
  }
}
