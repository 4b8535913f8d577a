/** The fill-only merge of per-model request defaults into a caller's body
    (internal/config/request_defaults.go), and the algebra it obeys on JSON trees. */
module RequestDefaults {

  datatype Option<+T> = None | Some(value: T)

  /** A decoded JSON value. */
  datatype Json =
    | Null
    | Bool(b: bool)
    | Number(n: real)
    | Str(s: string)
    | Arr(items: seq<Json>)
    | Obj(fields: map<string, Json>)

  type Path = seq<string>

  /** The merge: keys of the body win, keys of the defaults fill, two objects merge. */
  function Fill(body: Json, defaults: Json): Json
    decreases defaults
  {
    if body.Obj? && defaults.Obj? then
      Obj(map k | k in body.fields.Keys + defaults.fields.Keys ::
            if k !in defaults.fields then body.fields[k]
            else if k !in body.fields then defaults.fields[k]
            else Fill(body.fields[k], defaults.fields[k]))
    else
      body
  }

  /** The top-level default keys that the merge adds or merges into. */
  function AppliedKeys(body: Json, defaults: Json): set<string>
    requires body.Obj? && defaults.Obj?
    decreases defaults
  {
    set k | k in defaults.fields &&
            (k !in body.fields ||
             (body.fields[k].Obj? && defaults.fields[k].Obj? && AppliedKeys(body.fields[k], defaults.fields[k]) != {}))
  }

  // ----- the methods, against the functions --------------------------------------------

  method ApplyRequestDefaults(body: map<string, Json>, defaults: map<string, Json>) returns (out: map<string, Json>)
    ensures Obj(out) == Fill(Obj(body), Obj(defaults))
    decreases Obj(defaults)
  {
    out := map[];
    var todo := body.Keys;
    while todo != {}
      invariant todo <= body.Keys
      invariant out.Keys == body.Keys - todo
      invariant forall k | k in out :: out[k] == body[k]
      decreases todo
    {
      var k :| k in todo;
      out := out[k := body[k]];
      todo := todo - {k};
    }
    assert out == body;
    ghost var goal := Fill(Obj(body), Obj(defaults)).fields;
    todo := defaults.Keys;
    while todo != {}
      invariant todo <= defaults.Keys
      invariant out.Keys == body.Keys + (defaults.Keys - todo)
      invariant forall k | k in out :: out[k] == if k in todo then body[k] else goal[k]
      decreases todo
    {
      var k :| k in todo;
      var dv := defaults[k];
      assert goal[k] == if k in body then Fill(body[k], dv) else dv;
      if k !in out {
        out := out[k := dv];
      } else if out[k].Obj? && dv.Obj? {
        assert dv < Obj(defaults);
        var merged := ApplyRequestDefaults(out[k].fields, dv.fields);
        out := out[k := Obj(merged)];
      }
      todo := todo - {k};
    }
    assert out == goal;
  }

  method AppliedRequestDefaultKeys(body: map<string, Json>, defaults: map<string, Json>) returns (keys: set<string>)
    ensures keys == AppliedKeys(Obj(body), Obj(defaults))
    decreases Obj(defaults)
  {
    keys := {};
    ghost var goal := AppliedKeys(Obj(body), Obj(defaults));
    var todo := defaults.Keys;
    while todo != {}
      invariant todo <= defaults.Keys
      invariant keys == goal - todo
      decreases todo
    {
      var k :| k in todo;
      var dv := defaults[k];
      if k !in body {
        keys := keys + {k};
      } else if body[k].Obj? && dv.Obj? {
        assert dv < Obj(defaults);
        var nested := AppliedRequestDefaultKeys(body[k].fields, dv.fields);
        if nested != {} {
          keys := keys + {k};
        }
      }
      todo := todo - {k};
    }
  }

  /** An alias override: its own defaults, and the older shorthand for chat-template arguments. */
  datatype AliasOverride = AliasOverride(requestDefaults: map<string, Json>, chatTemplateKwargs: map<string, Json>, toolProxy: Option<bool>)

  datatype ModelDefaults = ModelDefaults(requestDefaults: map<string, Json>, overrides: map<string, AliasOverride>)

  const CHAT_TEMPLATE_KWARGS := "chat_template_kwargs"

  /** What an alias says for itself: its defaults, with the shorthand folded in below them. */
  function AliasLevel(ov: AliasOverride): Json {
    if ov.chatTemplateKwargs == map[] then Obj(ov.requestDefaults)
    else Fill(Obj(ov.requestDefaults), Obj(map[CHAT_TEMPLATE_KWARGS := Obj(ov.chatTemplateKwargs)]))
  }

  /** The defaults of a request that came in under an alias; "" is a direct match. */
  method RequestDefaultsFor(m: ModelDefaults, alias: string) returns (out: map<string, Json>)
    ensures alias == "" || alias !in m.overrides ==> out == m.requestDefaults
    ensures alias != "" && alias in m.overrides ==>
              Obj(out) == Fill(AliasLevel(m.overrides[alias]), Obj(m.requestDefaults))
  {
    out := map[];
    if m.requestDefaults != map[] {
      out := ApplyRequestDefaults(map[], m.requestDefaults);
      assert Fill(Obj(map[]), Obj(m.requestDefaults)) == Obj(m.requestDefaults);
    }
    if alias == "" || alias !in m.overrides {
      return;
    }
    var ov := m.overrides[alias];
    var over := ov.requestDefaults;
    if ov.chatTemplateKwargs != map[] {
      over := ApplyRequestDefaults(over, map[CHAT_TEMPLATE_KWARGS := Obj(ov.chatTemplateKwargs)]);
    }
    if over == map[] {
      assert Fill(Obj(map[]), Obj(m.requestDefaults)) == Obj(m.requestDefaults);
      return;
    }
    out := ApplyRequestDefaults(over, out);
  }

  // ----- what the merge means, path by path --------------------------------------------

  /** The value found by following a path of keys through nested objects. */
  function Get(j: Json, p: Path): Option<Json>
    decreases p
  {
    if p == [] then Some(j)
    else if j.Obj? && p[0] in j.fields then Get(j.fields[p[0]], p[1..])
    else None
  }

  /** The caller left this path unsaid: it runs through the caller's objects into a missing key. */
  predicate Open(j: Json, p: Path)
    decreases p
  {
    p != [] && j.Obj? && (p[0] !in j.fields || Open(j.fields[p[0]], p[1..]))
  }

  /** The merged tree, described at every path without recursion through the trees. */
  lemma {:induction false} FillAt(b: Json, d: Json, p: Path)
    requires b.Obj?
    ensures Get(Fill(b, d), p) ==
            if Open(b, p) then Get(d, p)
            else if Get(b, p).Some? && Get(d, p).Some? then Some(Fill(Get(b, p).value, Get(d, p).value))
            else Get(b, p)
    decreases p
  {
    OpenIsUnset(b, p);
    if p != [] && d.Obj? && p[0] in b.fields && p[0] in d.fields && b.fields[p[0]].Obj? {
      FillAt(b.fields[p[0]], d.fields[p[0]], p[1..]);
    }
  }

  /** Fill-only, and nothing else: a non-object value stands at a path of the merged body exactly
      when the caller put it there, or the defaults did and the caller left the path unsaid. */
  lemma LeavesExact(b: Json, d: Json, p: Path, v: Json)
    requires b.Obj? && !v.Obj?
    ensures Get(Fill(b, d), p) == Some(v) <==> Get(b, p) == Some(v) || (Open(b, p) && Get(d, p) == Some(v))
  {
    FillAt(b, d, p);
    OpenIsUnset(b, p);
  }

  lemma {:induction false} OpenIsUnset(j: Json, p: Path)
    ensures Open(j, p) ==> Get(j, p) == None
    decreases p
  {
    if Open(j, p) && p[0] in j.fields {
      OpenIsUnset(j.fields[p[0]], p[1..]);
    }
  }

  /** At the n-th step of the path, which the caller left unsaid, the defaults say nothing either: they have no
      value there, or on the way to the end an object. */
  predicate Silent(d: Json, p: Path, n: nat)
    requires n <= |p|
  {
    var v := Get(d, p[..n]);
    v.None? || (n < |p| && v.value.Obj?)
  }

  /** One step of the path taken: the rest is said below. */
  lemma StepInto(j: Json, p: Path, n: nat)
    requires 0 < n <= |p|
    ensures var rest := p[1..];
            if j.Obj? && p[0] in j.fields then
              && (Silent(j, p, n) <==> Silent(j.fields[p[0]], rest, n - 1))
              && (Open(j, p[..n]) <==> Open(j.fields[p[0]], rest[..n - 1]))
            else Silent(j, p, n) && (Open(j, p[..n]) <==> j.Obj?)
  {
    assert p[..n][0] == p[0] && p[..n][1..] == p[1..][..n - 1];
  }

  /** A path is open in an object if the object is silent at every step of it. */
  lemma {:induction false} OpenAlong(d: Json, p: Path)
    requires d.Obj? && p != []
    ensures Open(d, p) <==> forall n: nat | 0 < n <= |p| :: Silent(d, p, n)
    decreases p, 0
  {
    hide Silent;
    forall n: nat | 0 < n <= |p|
      ensures if p[0] in d.fields then Silent(d, p, n) <==> Silent(d.fields[p[0]], p[1..], n - 1) else Silent(d, p, n)
    {
      StepInto(d, p, n);
    }
    if p[0] in d.fields {
      OpenBelow(d.fields[p[0]], p[1..]);
      assert forall n: nat | n <= |p[1..]| :: Silent(d, p, n + 1) <==> Silent(d.fields[p[0]], p[1..], n);
    }
  }

  lemma {:induction false} OpenBelow(d: Json, p: Path)
    ensures Open(d, p) <==> forall n: nat | n <= |p| :: Silent(d, p, n)
    decreases p, 1
  {
    if p == [] || !d.Obj? {
      assert p[..0] == [];
      assert !Silent(d, p, 0);
    } else {
      assert p[..0] == [] && Silent(d, p, 0);
      OpenAlong(d, p);
    }
  }

  /** What is still unsaid after a merge: what the caller left unsaid, and the defaults as well. */
  lemma {:induction false} StillOpen(b: Json, d: Json, p: Path)
    requires b.Obj? && d.Obj?
    ensures Open(Fill(b, d), p) <==> Open(b, p) && forall n: nat | n <= |p| && Open(b, p[..n]) :: Silent(d, p, n)
    decreases p
  {
    if p != [] {
      var (k, rest) := (p[0], p[1..]);
      forall n: nat | 0 < n <= |p|
        ensures if k in b.fields then Open(b, p[..n]) <==> Open(b.fields[k], rest[..n - 1]) else Open(b, p[..n])
        ensures if k in d.fields then Silent(d, p, n) <==> Silent(d.fields[k], rest, n - 1) else Silent(d, p, n)
      {
        StepInto(b, p, n);
        StepInto(d, p, n);
      }
      assert !Open(b, p[..0]);
      if k !in b.fields {
        OpenAlong(d, p);
      } else if k in d.fields && b.fields[k].Obj? && d.fields[k].Obj? {
        StillOpen(b.fields[k], d.fields[k], rest);
        hide Silent;
        assert forall n: nat | n <= |rest| :: (Open(b, p[..n + 1]) <==> Open(b.fields[k], rest[..n])) && (Silent(d, p, n + 1) <==> Silent(d.fields[k], rest, n));
      } else {
        NothingBelow(b, d, p);
      }
    }
  }

  lemma NothingBelow(b: Json, d: Json, p: Path)
    requires b.Obj? && d.Obj? && p != [] && p[0] in b.fields
    requires p[0] in d.fields ==> !b.fields[p[0]].Obj? || !d.fields[p[0]].Obj?
    ensures Open(Fill(b, d), p) <==> Open(b, p)
    ensures Open(b, p) ==> forall n: nat | n <= |p| && Open(b, p[..n]) :: Silent(d, p, n)
  {
    if Open(b, p) {
      forall n: nat | n <= |p| && Open(b, p[..n])
        ensures Silent(d, p, n)
      {
        StepInto(b, p, n);
        StepInto(d, p, n);
        if p[0] in d.fields && n > 1 {
          assert p[1..][..n - 1] != [];
        }
      }
    }
  }

  /** The older shorthand as defaults of its own. */
  function Shorthand(ov: AliasOverride): Json {
    Obj(if ov.chatTemplateKwargs == map[] then map[] else map[CHAT_TEMPLATE_KWARGS := Obj(ov.chatTemplateKwargs)])
  }

  /** Three levels behind a request under an alias, each speaking only where the ones above left the path unsaid: the
      alias's own defaults, then what its older shorthand says under its one key, then the model's defaults. */
  lemma LevelsExact(ov: AliasOverride, model: Json, p: Path, v: Json)
    requires model.Obj? && !v.Obj?
    ensures var own := Obj(ov.requestDefaults);
            Get(Fill(AliasLevel(ov), model), p) == Some(v) <==>
              || Get(own, p) == Some(v)
              || (Open(own, p) && p[0] == CHAT_TEMPLATE_KWARGS && Get(Obj(ov.chatTemplateKwargs), p[1..]) == Some(v))
              || (Open(own, p) && (forall n: nat | n <= |p| && Open(own, p[..n]) :: Silent(Shorthand(ov), p, n)) && Get(model, p) == Some(v))
  {
    hide Silent;
    var (own, short) := (Obj(ov.requestDefaults), Shorthand(ov));
    assert AliasLevel(ov) == Fill(own, short) by {
      assert own.fields == Fill(own, Obj(map[])).fields;
    }
    LeavesExact(AliasLevel(ov), model, p, v);
    LeavesExact(own, short, p, v);
    StillOpen(own, short, p);
    if Open(own, p) {
      ShorthandAt(ov, p, v);
    }
  }

  lemma ShorthandAt(ov: AliasOverride, p: Path, v: Json)
    requires p != [] && !v.Obj?
    ensures Get(Shorthand(ov), p) == Some(v) <==> p[0] == CHAT_TEMPLATE_KWARGS && Get(Obj(ov.chatTemplateKwargs), p[1..]) == Some(v)
  {
    if ov.chatTemplateKwargs == map[] && p[1..] != [] {
      assert Get(Obj(map[]), p[1..]) == None;
    }
  }

  // ----- idempotence, and the applied-keys report --------------------------------------

  lemma {:induction false} FillSelf(d: Json)
    ensures Fill(d, d) == d
    decreases d
  {
    if d.Obj? {
      forall k | k in d.fields
        ensures Fill(d.fields[k], d.fields[k]) == d.fields[k]
      {
        FillSelf(d.fields[k]);
      }
      assert Fill(d, d).fields == d.fields;
    }
  }

  /** Applying the same defaults twice is applying them once. */
  lemma {:induction false} FillIdempotent(b: Json, d: Json)
    ensures Fill(Fill(b, d), d) == Fill(b, d)
    decreases d
  {
    if b.Obj? && d.Obj? {
      forall k | k in d.fields
        ensures Fill(Fill(b, d).fields[k], d.fields[k]) == Fill(b, d).fields[k]
      {
        if k in b.fields {
          FillIdempotent(b.fields[k], d.fields[k]);
        } else {
          FillSelf(d.fields[k]);
        }
      }
      assert Fill(Fill(b, d), d).fields == Fill(b, d).fields;
    }
  }

  /** The reported keys are exactly the top-level keys where the merged body differs from the
      caller's; so the report is empty exactly when the merge changed nothing. */
  lemma {:induction false} AppliedKeysExact(b: Json, d: Json)
    requires b.Obj? && d.Obj?
    ensures AppliedKeys(b, d) ==
            set k | k in Fill(b, d).fields && (k !in b.fields || Fill(b, d).fields[k] != b.fields[k])
    ensures AppliedKeys(b, d) == {} <==> Fill(b, d) == b
    decreases d
  {
    forall k | k in d.fields && k in b.fields
      ensures k in AppliedKeys(b, d) <==> Fill(b, d).fields[k] != b.fields[k]
    {
      if b.fields[k].Obj? && d.fields[k].Obj? {
        AppliedKeysExact(b.fields[k], d.fields[k]);
      }
    }
    if AppliedKeys(b, d) == {} {
      forall k | k in d.fields
        ensures k in b.fields
      {
        assert k !in AppliedKeys(b, d);
      }
      forall k | k in Fill(b, d).fields
        ensures k in b.fields && Fill(b, d).fields[k] == b.fields[k]
      {
        assert k !in AppliedKeys(b, d);
      }
      assert Fill(b, d).fields == b.fields;
    } else {
      var k :| k in AppliedKeys(b, d);
    }
  }

  // ----- two levels of defaults --------------------------------------------------------

  /** Somewhere the body and the model hold objects, the alias in between holds something else,
      and the model's object says more than the body's. */
  predicate Clash(b: Json, a: Json, m: Json)
    decreases m
  {
    b.Obj? && a.Obj? && m.Obj? &&
    exists k :: k in b.fields && k in a.fields && k in m.fields &&
                (Clash(b.fields[k], a.fields[k], m.fields[k]) || ClashHere(b.fields[k], a.fields[k], m.fields[k]))
  }

  predicate ClashHere(b: Json, a: Json, m: Json) {
    b.Obj? && !a.Obj? && m.Obj? && AppliedKeys(b, m) != {}
  }

  /** The trees clash at this point or below it. */
  predicate Clashes(b: Json, a: Json, m: Json) {
    ClashHere(b, a, m) || Clash(b, a, m)
  }

  predicate AllHold(b: Json, a: Json, m: Json, k: string)
    requires b.Obj? && a.Obj? && m.Obj?
  {
    k in b.fields && k in a.fields && k in m.fields
  }

  /** Filling with two levels at once and one after the other come to the same. */
  predicate Agree(b: Json, a: Json, m: Json) {
    Fill(b, Fill(a, m)) == Fill(Fill(b, a), m)
  }

  /** One key of the two results. */
  lemma SequentialFillKey(b: Json, a: Json, m: Json, k: string)
    requires b.Obj? && a.Obj? && m.Obj?
    requires k in b.fields || k in a.fields || k in m.fields
    ensures var (two, steps) := (Fill(b, Fill(a, m)).fields, Fill(Fill(b, a), m).fields);
            && k in two && k in steps
            && (two[k] == steps[k] <==> (AllHold(b, a, m, k) ==> Agree(b.fields[k], a.fields[k], m.fields[k])))
  {
  }

  /** Objects agree exactly if they agree at every key that all three hold. */
  lemma AgreeByKey(b: Json, a: Json, m: Json)
    requires b.Obj? && a.Obj? && m.Obj?
    ensures Agree(b, a, m) <==> forall k | AllHold(b, a, m, k) :: Agree(b.fields[k], a.fields[k], m.fields[k])
  {
    SequentialFillKeys(b, a, m);
    var (two, steps) := (Fill(b, Fill(a, m)), Fill(Fill(b, a), m));
    assert Agree(b, a, m) <==> two == steps;
    hide Fill, Agree;
    forall k | k in two.fields
      ensures two.fields[k] == steps.fields[k] <==> (AllHold(b, a, m, k) ==> Agree(b.fields[k], a.fields[k], m.fields[k]))
    {
      SequentialFillKey(b, a, m, k);
    }
    if forall k | AllHold(b, a, m, k) :: Agree(b.fields[k], a.fields[k], m.fields[k]) {
      assert two.fields == steps.fields;
    } else {
      var k :| AllHold(b, a, m, k) && !Agree(b.fields[k], a.fields[k], m.fields[k]);
      assert k in two.fields;
    }
  }

  lemma SequentialFillKeys(b: Json, a: Json, m: Json)
    requires b.Obj? && a.Obj? && m.Obj?
    ensures Fill(b, Fill(a, m)).Obj? && Fill(b, Fill(a, m)).fields.Keys == b.fields.Keys + a.fields.Keys + m.fields.Keys
    ensures Fill(Fill(b, a), m).Obj? && Fill(Fill(b, a), m).fields.Keys == b.fields.Keys + a.fields.Keys + m.fields.Keys
  {
  }

  lemma ClashAtKey(b: Json, a: Json, m: Json)
    requires b.Obj? && a.Obj? && m.Obj?
    ensures Clashes(b, a, m) <==> exists k :: AllHold(b, a, m, k) && Clashes(b.fields[k], a.fields[k], m.fields[k])
  {
    hide ClashHere;
    assert !ClashHere(b, a, m) by { NoClashHere(b, a, m); }
    forall k | AllHold(b, a, m, k)
      ensures Clashes(b.fields[k], a.fields[k], m.fields[k]) <==>
              Clash(b.fields[k], a.fields[k], m.fields[k]) || ClashHere(b.fields[k], a.fields[k], m.fields[k])
    {
    }
  }

  lemma NoClashHere(b: Json, a: Json, m: Json)
    requires a.Obj?
    ensures !ClashHere(b, a, m)
  {
  }

  lemma {:induction false} SequentialFillAt(b: Json, a: Json, m: Json)
    ensures Agree(b, a, m) <==> !Clashes(b, a, m)
    decreases m
  {
    hide Agree, Clashes;
    if b.Obj? && a.Obj? && m.Obj? {
      forall k | AllHold(b, a, m, k)
        ensures Agree(b.fields[k], a.fields[k], m.fields[k]) <==> !Clashes(b.fields[k], a.fields[k], m.fields[k])
      {
        SequentialFillAt(b.fields[k], a.fields[k], m.fields[k]);
      }
      AgreeByKey(b, a, m);
      ClashAtKey(b, a, m);
    } else {
      SequentialFillLeaf(b, a, m);
    }
  }

  lemma SequentialFillLeaf(b: Json, a: Json, m: Json)
    requires !(b.Obj? && a.Obj? && m.Obj?)
    ensures Agree(b, a, m) <==> !Clashes(b, a, m)
  {
    if b.Obj? && m.Obj? {
      AppliedKeysExact(b, m);
    }
  }

  /** Filling with (alias over model) is filling with the alias and then with the model, for every
      body, exactly when no path clashes. */
  lemma PrecedenceIsSequentialFill(b: Json, a: Json, m: Json)
    requires b.Obj? && a.Obj? && m.Obj?
    ensures Fill(b, Fill(a, m)) == Fill(Fill(b, a), m) <==> !Clash(b, a, m)
  {
    SequentialFillAt(b, a, m);
  }

  lemma {:induction false} RefillAt(b: Json, a: Json, m: Json)
    ensures !ClashHere(b, a, m) && !Clash(b, a, m) ==> Fill(Fill(b, Fill(a, m)), m) == Fill(b, Fill(a, m))
    ensures ClashHere(b, a, m) || Clash(b, a, m) ==> Fill(Fill(b, Fill(a, m)), m) != Fill(b, Fill(a, m))
  {
    SequentialFillAt(b, a, m);
    if !ClashHere(b, a, m) && !Clash(b, a, m) {
      FillIdempotent(Fill(b, a), m);
    } else {
      RefillClash(b, a, m);
    }
  }

  lemma {:induction false} RefillClash(b: Json, a: Json, m: Json)
    requires ClashHere(b, a, m) || Clash(b, a, m)
    ensures Fill(Fill(b, Fill(a, m)), m) != Fill(b, Fill(a, m))
    decreases m
  {
    if ClashHere(b, a, m) {
      AppliedKeysExact(b, m);
    } else {
      var k :| k in b.fields && k in a.fields && k in m.fields &&
               (Clash(b.fields[k], a.fields[k], m.fields[k]) || ClashHere(b.fields[k], a.fields[k], m.fields[k]));
      RefillClash(b.fields[k], a.fields[k], m.fields[k]);
      assert Fill(Fill(b, Fill(a, m)), m).fields[k] != Fill(b, Fill(a, m)).fields[k];
    }
  }

  /** The tool proxy fills the forwarded body with the model's own defaults once more. That second
      application is a no-op exactly when no path clashes. */
  lemma SecondApplicationIsNoOp(b: Json, a: Json, m: Json)
    requires b.Obj? && a.Obj? && m.Obj?
    ensures Fill(Fill(b, Fill(a, m)), m) == Fill(b, Fill(a, m)) <==> !Clash(b, a, m)
  {
    RefillAt(b, a, m);
  }

  /** A body with an object, an alias that overrides it with null, a model with more to say. */
  lemma ClashWitness()
    ensures var b, a, m := Obj(map["k" := Obj(map[])]), Obj(map["k" := Null]), Obj(map["k" := Obj(map["x" := Bool(true)])]);
            Clash(b, a, m) &&
            Fill(b, Fill(a, m)) != Fill(Fill(b, a), m) &&
            Fill(Fill(b, Fill(a, m)), m) != Fill(b, Fill(a, m))
  {
    var b, a, m := Obj(map["k" := Obj(map[])]), Obj(map["k" := Null]), Obj(map["k" := Obj(map["x" := Bool(true)])]);
    assert "x" in AppliedKeys(b.fields["k"], m.fields["k"]);
    assert ClashHere(b.fields["k"], a.fields["k"], m.fields["k"]);
    assert Clash(b, a, m);
    SequentialFillAt(b, a, m);
    RefillAt(b, a, m);
  }
}
