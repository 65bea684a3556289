/**
 * The daemon's engine registry (bus/ibusimpl.c): the components read
 * from the component catalog at start-up, the components that running
 * engine processes register over D-Bus, the engine descriptions each of
 * them provides, and the lookup of an engine description by name.
 */
module Registry {
  import opened Common

  type ComponentId = nat
  type FactoryId = nat

  /** The engine the daemon falls back to when a client asks for none
      (configured at build time). */
  const DefaultEngine: string := "xkb:us::eng"

  /** An engine description, with the component that provides it. */
  datatype EngineDesc = EngineDesc(name: string, layout: string, owner: ComponentId)

  /** An engine as listed in a component's description. */
  datatype EngineInfo = EngineInfo(name: string, layout: string)

  /** A component as described in the catalog or in a RegisterComponent
      call. */
  datatype ComponentInfo = ComponentInfo(name: string, engines: seq<EngineInfo>)

  /** A component known to the daemon, with the factory through which its
      running process creates engines (absent while it is not running). */
  datatype Component = Component(name: string, engines: seq<EngineDesc>,
                                 factory: Option<FactoryId>)

  /** Observable actions of the registry. */
  datatype Effect =
    | StartComponent(component: ComponentId)
    | FactoryDestroyed(factory: FactoryId)
    | PropertyChanged(property: string, names: seq<string>)

  /** The descriptions of a component's engines, owned by id. */
  function Descs(engines: seq<EngineInfo>, id: ComponentId): (ds: seq<EngineDesc>)
    ensures |ds| == |engines|
    ensures forall i :: 0 <= i < |ds| ==>
              ds[i] == EngineDesc(engines[i].name, engines[i].layout, id)
  {
    if engines == [] then []
    else Descs(engines[..|engines| - 1], id)
         + [EngineDesc(engines[|engines| - 1].name, engines[|engines| - 1].layout, id)]
  }

  /** The record of a catalog component, not running yet. */
  function FromInfo(info: ComponentInfo, id: ComponentId): Component
  {
    Component(info.name, Descs(info.engines, id), None)
  }

  /** The engines of the catalog, in catalog order, each owned by the
      index of its component. */
  function CatalogEngines(catalog: seq<ComponentInfo>): seq<EngineDesc>
  {
    if catalog == [] then []
    else CatalogEngines(catalog[..|catalog| - 1])
         + Descs(catalog[|catalog| - 1].engines, |catalog| - 1)
  }

  lemma {:induction false} CatalogEnginesOwners(catalog: seq<ComponentInfo>)
    ensures forall d :: d in CatalogEngines(catalog) ==> d.owner < |catalog|
  {
    if catalog != [] {
      CatalogEnginesOwners(catalog[..|catalog| - 1]);
    }
  }

  /** The first description in list with the given name. */
  function FirstNamed(list: seq<EngineDesc>, name: string): (r: Option<EngineDesc>)
    ensures r.Some? ==> r.value in list && r.value.name == name
    ensures r.None? <==> forall d :: d in list ==> d.name != name
  {
    if list == [] then None
    else if list[0].name == name then Some(list[0])
    else FirstNamed(list[1..], name)
  }

  /** The description the daemon serves for a name: none for the empty
      name, otherwise the first registered engine of that name, otherwise
      the catalog engine of that name. */
  function LookupDesc(list: seq<EngineDesc>, table: map<string, EngineDesc>,
                      name: string): (r: Option<EngineDesc>)
    ensures name == "" ==> r.None?
    ensures name != "" && FirstNamed(list, name).Some? ==> r == FirstNamed(list, name)
    ensures r.Some? ==> r.value in list || (name in table && r.value == table[name])
    ensures name != "" && r.None? ==> (forall d :: d in list ==> d.name != name) && name !in table
  {
    if name == "" then None
    else if FirstNamed(list, name).Some? then FirstNamed(list, name)
    else if name in table then Some(table[name])
    else None
  }

  /** The engines of the components ids, in component order. */
  function Flatten(ids: seq<ComponentId>, table: map<ComponentId, Component>): seq<EngineDesc>
    requires forall i :: 0 <= i < |ids| ==> ids[i] in table
  {
    if ids == [] then []
    else Flatten(ids[..|ids| - 1], table) + table[ids[|ids| - 1]].engines
  }

  /** The table of catalog engines keyed by name, where the first
      component to provide a name keeps it. */
  function FirstWinsTable(ds: seq<EngineDesc>): map<string, EngineDesc>
  {
    if ds == [] then map[]
    else
      var t := FirstWinsTable(ds[..|ds| - 1]);
      var d := ds[|ds| - 1];
      if d.name in t then t else t[d.name := d]
  }

  /** Each entry of the catalog table is an engine of that name from
      the list. */
  lemma {:induction false} FirstWinsTableFrom(ds: seq<EngineDesc>)
    ensures forall n :: n in FirstWinsTable(ds) ==>
              FirstWinsTable(ds)[n].name == n && FirstWinsTable(ds)[n] in ds
  {
    if ds != [] {
      FirstWinsTableFrom(ds[..|ds| - 1]);
      assert forall d :: d in ds[..|ds| - 1] ==> d in ds;
    }
  }

  /** The list without the first occurrence of x. */
  function RemoveFirst<T(==)>(s: seq<T>, x: T): seq<T>
  {
    if s == [] then []
    else if s[0] == x then s[1..]
    else [s[0]] + RemoveFirst(s[1..], x)
  }

  /** The list after removing the first occurrence of each of xs in turn. */
  function RemoveEach<T(==)>(s: seq<T>, xs: seq<T>): seq<T>
  {
    if xs == [] then s
    else RemoveFirst(RemoveEach(s, xs[..|xs| - 1]), xs[|xs| - 1])
  }

  /** Every id is known, listed once, and owns exactly its own engines. */
  predicate WellFormed(ids: seq<ComponentId>, table: map<ComponentId, Component>)
  {
    (forall i :: 0 <= i < |ids| ==> ids[i] in table)
    && NoDup(ids)
    && (forall c, d :: c in table && d in table[c].engines ==> d.owner == c)
  }

  /** The components to start for a PreloadEngines request naming
      names[i..], given those already chosen (acc): for each name the
      component of its engine, unless it is running or already chosen.
      An unknown name fails the whole request. */
  function PreloadPlan(names: seq<string>, i: nat, list: seq<EngineDesc>,
                       table: map<string, EngineDesc>, components: map<ComponentId, Component>,
                       acc: seq<ComponentId>): Result<seq<ComponentId>>
    requires forall d :: d in list ==> d.owner in components
    requires forall n :: n in table ==> table[n].owner in components
    decreases |names| - i
  {
    if i >= |names| then Ok(acc)
    else
      match LookupDesc(list, table, names[i])
      case None => Err("Cannot find engine " + names[i] + ".")
      case Some(d) =>
        if components[d.owner].factory.Some? then
          PreloadPlan(names, i + 1, list, table, components, acc)
        else
          PreloadPlan(names, i + 1, list, table, components,
                      if d.owner in acc then acc else acc + [d.owner])
  }

  // ---------------------------------------------------------------
  // Lemmas on the lookup tables
  // ---------------------------------------------------------------

  /** Appending one description changes the first match of a name only
      when the name had none. */
  lemma {:induction false} FirstNamedAppend(list: seq<EngineDesc>, d: EngineDesc, name: string)
    ensures FirstNamed(list + [d], name)
            == if FirstNamed(list, name).Some? then FirstNamed(list, name)
               else if d.name == name then Some(d) else None
  {
    if list != [] {
      assert (list + [d])[1..] == list[1..] + [d];
      FirstNamedAppend(list[1..], d, name);
    }
  }

  /** The catalog table holds exactly the names of the catalog engines,
      each mapped to the first engine of that name. */
  lemma {:induction false} FirstWinsTableIsFirstNamed(ds: seq<EngineDesc>, name: string)
    ensures name in FirstWinsTable(ds) <==> FirstNamed(ds, name).Some?
    ensures name in FirstWinsTable(ds) ==> FirstWinsTable(ds)[name] == FirstNamed(ds, name).value
  {
    if ds != [] {
      var init := ds[..|ds| - 1];
      FirstWinsTableIsFirstNamed(init, name);
      assert ds == init + [ds[|ds| - 1]];
      FirstNamedAppend(init, ds[|ds| - 1], name);
    }
  }

  /** Every engine of the flattened list belongs to one of the ids. */
  lemma {:induction false} FlattenOwners(ids: seq<ComponentId>, table: map<ComponentId, Component>,
                                         d: EngineDesc)
    requires forall i :: 0 <= i < |ids| ==> ids[i] in table
    requires forall c, e :: c in table && e in table[c].engines ==> e.owner == c
    requires d in Flatten(ids, table)
    ensures d.owner in ids
  {
    var init := ids[..|ids| - 1];
    if d in Flatten(init, table) {
      FlattenOwners(init, table, d);
    }
  }

  lemma FlattenOwnersAll(ids: seq<ComponentId>, table: map<ComponentId, Component>)
    requires forall i :: 0 <= i < |ids| ==> ids[i] in table
    requires forall c, e :: c in table && e in table[c].engines ==> e.owner == c
    ensures forall d :: d in Flatten(ids, table) ==> d.owner in ids
  {
    forall d | d in Flatten(ids, table) ensures d.owner in ids {
      FlattenOwners(ids, table, d);
    }
  }

  lemma {:induction false} FlattenAppend(a: seq<ComponentId>, b: seq<ComponentId>,
                                         table: map<ComponentId, Component>)
    requires forall i :: 0 <= i < |a| ==> a[i] in table
    requires forall i :: 0 <= i < |b| ==> b[i] in table
    ensures Flatten(a + b, table) == Flatten(a, table) + Flatten(b, table)
  {
    if b != [] {
      assert (a + b)[..|a + b| - 1] == a + b[..|b| - 1];
      FlattenAppend(a, b[..|b| - 1], table);
    } else {
      assert a + b == a;
    }
  }

  /** The flattened list depends only on the components listed. */
  lemma {:induction false} FlattenFrame(ids: seq<ComponentId>, t1: map<ComponentId, Component>,
                                        t2: map<ComponentId, Component>)
    requires forall i :: 0 <= i < |ids| ==> ids[i] in t1 && ids[i] in t2
                                            && t1[ids[i]].engines == t2[ids[i]].engines
    ensures Flatten(ids, t1) == Flatten(ids, t2)
  {
    if ids != [] {
      FlattenFrame(ids[..|ids| - 1], t1, t2);
    }
  }

  lemma {:induction false} RemoveFirstSkips<T>(pre: seq<T>, s: seq<T>, x: T)
    requires x !in pre
    ensures RemoveFirst(pre + s, x) == pre + RemoveFirst(s, x)
  {
    if pre != [] {
      assert (pre + s)[1..] == pre[1..] + s;
      RemoveFirstSkips(pre[1..], s, x);
    } else {
      assert pre + s == s;
    }
  }

  lemma {:induction false} RemoveFirstAt<T>(s: seq<T>, x: T, p: nat)
    requires p < |s| && s[p] == x && x !in s[..p]
    ensures RemoveFirst(s, x) == s[..p] + s[p + 1..]
  {
    assert s == s[..p] + s[p..];
    RemoveFirstSkips(s[..p], s[p..], x);
  }

  /** Removing, one by one, the first k engines of a component's block
      leaves the rest of the list as it was. */
  lemma {:induction false} RemoveEachBlock<T>(pre: seq<T>, block: seq<T>, post: seq<T>, k: nat)
    requires k <= |block|
    requires forall x :: x in block ==> x !in pre
    ensures RemoveEach(pre + block + post, block[..k]) == pre + block[k..] + post
  {
    if k > 0 {
      assert block[..k][..k - 1] == block[..k - 1];
      RemoveEachBlock(pre, block, post, k - 1);
      var x := block[k - 1];
      assert block[k - 1..] == [x] + block[k..];
      RemoveFirstSkips(pre, block[k - 1..] + post, x);
      assert pre + block[k - 1..] + post == pre + (block[k - 1..] + post);
      assert (block[k - 1..] + post)[1..] == block[k..] + post;
    } else {
      assert block[..0] == [];
    }
  }

  /** Removing a listed component from a well-formed list keeps it
      well-formed and splits it around the component. */
  lemma RemoveListed(ids: seq<ComponentId>, table: map<ComponentId, Component>, c: ComponentId,
                     p: nat)
    requires WellFormed(ids, table) && p < |ids| && ids[p] == c
    ensures RemoveFirst(ids, c) == ids[..p] + ids[p + 1..]
    ensures WellFormed(RemoveFirst(ids, c), table)
    ensures c !in RemoveFirst(ids, c)
  {
    assert c !in ids[..p];
    RemoveFirstAt(ids, c, p);
    var rest := RemoveFirst(ids, c);
    forall i, j | 0 <= i < j < |rest| ensures rest[i] != rest[j] {
      var i' := if i < p then i else i + 1;
      var j' := if j < p then j else j + 1;
      assert rest[i] == ids[i'] && rest[j] == ids[j'];
    }
  }

  /** The engine list of a list split around c is the engines before,
      c's block, and the engines after. */
  lemma FlattenSplit(ids: seq<ComponentId>, table: map<ComponentId, Component>, p: nat)
    requires forall i :: 0 <= i < |ids| ==> ids[i] in table
    requires p < |ids|
    ensures Flatten(ids, table)
            == Flatten(ids[..p], table) + table[ids[p]].engines + Flatten(ids[p + 1..], table)
    ensures Flatten(ids[..p] + ids[p + 1..], table)
            == Flatten(ids[..p], table) + Flatten(ids[p + 1..], table)
  {
    var pre := ids[..p];
    var post := ids[p + 1..];
    assert ids == (pre + [ids[p]]) + post;
    FlattenAppend(pre + [ids[p]], post, table);
    assert (pre + [ids[p]])[..|pre|] == pre;
    FlattenAppend(pre, post, table);
  }

  lemma {:induction false} RemoveFirstAbsent<T>(s: seq<T>, x: T)
    requires x !in s
    ensures RemoveFirst(s, x) == s
  {
    if s != [] {
      RemoveFirstAbsent(s[1..], x);
    }
  }

  lemma {:induction false} FirstComponentNamedFrame(ids: seq<ComponentId>,
                                                    t1: map<ComponentId, Component>,
                                                    t2: map<ComponentId, Component>, name: string)
    requires forall i :: 0 <= i < |ids| ==> ids[i] in t1 && ids[i] in t2
                                            && t1[ids[i]].name == t2[ids[i]].name
    ensures FirstComponentNamed(ids, t1, name) == FirstComponentNamed(ids, t2, name)
  {
    if ids != [] {
      FirstComponentNamedFrame(ids[1..], t1, t2, name);
    }
  }

  /** Registering a new component keeps the list well formed and
      appends its engines to the engine list. */
  lemma RegisterAppends(ids: seq<ComponentId>, table: map<ComponentId, Component>,
                        id: ComponentId, comp: Component)
    requires WellFormed(ids, table) && id !in table
    requires forall d :: d in comp.engines ==> d.owner == id
    ensures WellFormed(ids + [id], table[id := comp])
    ensures Flatten(ids + [id], table[id := comp]) == Flatten(ids, table) + comp.engines
  {
    var t := table[id := comp];
    FlattenFrame(ids, table, t);
    assert (ids + [id])[..|ids|] == ids;
  }

  /** No engine of the component at position p is an engine of a
      component listed before it. */
  lemma BlockNotBefore(ids: seq<ComponentId>, table: map<ComponentId, Component>, p: nat)
    requires WellFormed(ids, table) && p < |ids|
    ensures forall x :: x in table[ids[p]].engines ==> x !in Flatten(ids[..p], table)
  {
    FlattenOwnersAll(ids[..p], table);
    assert ids[p] !in ids[..p];
  }

  /** Removing, one by one, the engines of the component at position p
      leaves the engines of the other components, in order. */
  lemma DropBlock(ids: seq<ComponentId>, table: map<ComponentId, Component>, p: nat)
    requires WellFormed(ids, table) && p < |ids|
    ensures RemoveEach(Flatten(ids, table), table[ids[p]].engines)
            == Flatten(ids[..p] + ids[p + 1..], table)
  {
    FlattenSplit(ids, table, p);
    var before := Flatten(ids[..p], table);
    var block := table[ids[p]].engines;
    var after := Flatten(ids[p + 1..], table);
    BlockNotBefore(ids, table, p);
    RemoveEachBlock(before, block, after, |block|);
    assert block[..|block|] == block;
    assert before + block[|block|..] + after == before + after;
  }

  /** Unregistering a component takes its engines out of the registered
      engine list and nothing else: the list stays the engines of the
      remaining components, and no engine of the component is left. */
  lemma DestroyDropsEngines(ids: seq<ComponentId>, table: map<ComponentId, Component>, c: ComponentId)
    requires WellFormed(ids, table) && c in ids
    ensures WellFormed(RemoveFirst(ids, c), table)
    ensures RemoveEach(Flatten(ids, table), table[c].engines)
            == Flatten(RemoveFirst(ids, c), table)
    ensures forall d :: d in Flatten(RemoveFirst(ids, c), table) ==> d.owner != c
  {
    var p :| 0 <= p < |ids| && ids[p] == c;
    RemoveListed(ids, table, c, p);
    DropBlock(ids, table, p);
    FlattenOwnersAll(RemoveFirst(ids, c), table);
  }

  // ---------------------------------------------------------------
  // Lemmas on PreloadEngines
  // ---------------------------------------------------------------

  /** A plan never starts a component twice. */
  lemma {:induction false} PreloadPlanNoDup(names: seq<string>, i: nat, list: seq<EngineDesc>,
                                            table: map<string, EngineDesc>,
                                            components: map<ComponentId, Component>,
                                            acc: seq<ComponentId>)
    requires forall d :: d in list ==> d.owner in components
    requires forall n :: n in table ==> table[n].owner in components
    requires NoDup(acc)
    ensures var r := PreloadPlan(names, i, list, table, components, acc);
            r.Ok? ==> NoDup(r.value)
    decreases |names| - i
  {
    if i < |names| {
      match LookupDesc(list, table, names[i])
      case None =>
      case Some(d) =>
        var acc' := if components[d.owner].factory.Some? || d.owner in acc then acc
                    else acc + [d.owner];
        PreloadPlanNoDup(names, i + 1, list, table, components, acc');
    }
  }

  /** A plan starts only components that are not running, and keeps what
      was already chosen in front. */
  lemma {:induction false} PreloadPlanNotRunning(names: seq<string>, i: nat, list: seq<EngineDesc>,
                                                 table: map<string, EngineDesc>,
                                                 components: map<ComponentId, Component>,
                                                 acc: seq<ComponentId>)
    requires forall d :: d in list ==> d.owner in components
    requires forall n :: n in table ==> table[n].owner in components
    requires forall c :: c in acc ==> c in components && components[c].factory.None?
    ensures var r := PreloadPlan(names, i, list, table, components, acc);
            r.Ok? ==> acc <= r.value
                      && forall c :: c in r.value ==> c in components && components[c].factory.None?
    decreases |names| - i
  {
    if i < |names| {
      match LookupDesc(list, table, names[i])
      case None =>
      case Some(d) =>
        var acc' := if components[d.owner].factory.Some? || d.owner in acc then acc
                    else acc + [d.owner];
        PreloadPlanNotRunning(names, i + 1, list, table, components, acc');
    }
  }

  /** A plan succeeds exactly when every name is served; it then starts
      the component of every named engine that is not running. */
  lemma {:induction false} PreloadPlanComplete(names: seq<string>, i: nat, list: seq<EngineDesc>,
                                               table: map<string, EngineDesc>,
                                               components: map<ComponentId, Component>,
                                               acc: seq<ComponentId>)
    requires forall d :: d in list ==> d.owner in components
    requires forall n :: n in table ==> table[n].owner in components
    ensures var r := PreloadPlan(names, i, list, table, components, acc);
            (r.Ok? <==> forall k :: i <= k < |names| ==> LookupDesc(list, table, names[k]).Some?)
            && (r.Ok? ==>
                  forall k :: i <= k < |names| ==>
                    var d := LookupDesc(list, table, names[k]).value;
                    components[d.owner].factory.None? ==> d.owner in r.value)
    decreases |names| - i
  {
    if i < |names| {
      match LookupDesc(list, table, names[i])
      case None =>
      case Some(d) =>
        var acc' := if components[d.owner].factory.Some? || d.owner in acc then acc
                    else acc + [d.owner];
        PreloadPlanComplete(names, i + 1, list, table, components, acc');
        var r := PreloadPlan(names, i + 1, list, table, components, acc');
        if r.Ok? {
          PreloadPlanGrows(names, i + 1, list, table, components, acc');
        }
    }
  }

  lemma {:induction false} PreloadPlanGrows(names: seq<string>, i: nat, list: seq<EngineDesc>,
                                            table: map<string, EngineDesc>,
                                            components: map<ComponentId, Component>,
                                            acc: seq<ComponentId>)
    requires forall d :: d in list ==> d.owner in components
    requires forall n :: n in table ==> table[n].owner in components
    ensures var r := PreloadPlan(names, i, list, table, components, acc);
            r.Ok? ==> forall c :: c in acc ==> c in r.value
    decreases |names| - i
  {
    if i < |names| {
      match LookupDesc(list, table, names[i])
      case None =>
      case Some(d) =>
        var acc' := if components[d.owner].factory.Some? || d.owner in acc then acc
                    else acc + [d.owner];
        PreloadPlanGrows(names, i + 1, list, table, components, acc');
    }
  }

  /** A failing request reports the first name that has no engine. */
  lemma {:induction false} PreloadPlanError(names: seq<string>, i: nat, list: seq<EngineDesc>,
                                            table: map<string, EngineDesc>,
                                            components: map<ComponentId, Component>,
                                            acc: seq<ComponentId>, m: nat)
    requires forall d :: d in list ==> d.owner in components
    requires forall n :: n in table ==> table[n].owner in components
    requires i <= m < |names| && LookupDesc(list, table, names[m]).None?
    requires forall k :: i <= k < m ==> LookupDesc(list, table, names[k]).Some?
    ensures PreloadPlan(names, i, list, table, components, acc)
            == Err("Cannot find engine " + names[m] + ".")
    decreases m - i
  {
    if i < m {
      var d := LookupDesc(list, table, names[i]).value;
      var acc' := if components[d.owner].factory.Some? || d.owner in acc then acc
                  else acc + [d.owner];
      PreloadPlanError(names, i + 1, list, table, components, acc', m);
    }
  }

  /** The first catalog component of the given name. */
  function FirstComponentNamed(ids: seq<ComponentId>, table: map<ComponentId, Component>,
                               name: string): (r: Option<ComponentId>)
    requires forall i :: 0 <= i < |ids| ==> ids[i] in table
    ensures r.Some? ==> r.value in ids && table[r.value].name == name
    ensures r.None? <==> forall i :: 0 <= i < |ids| ==> table[ids[i]].name != name
  {
    if ids == [] then None
    else if table[ids[0]].name == name then Some(ids[0])
    else FirstComponentNamed(ids[1..], table, name)
  }

  /** The effects of starting each component of a plan, in order. */
  function Starts(plan: seq<ComponentId>): (es: seq<Effect>)
    ensures |es| == |plan| && forall k :: 0 <= k < |plan| ==> es[k] == StartComponent(plan[k])
  {
    if plan == [] then [] else Starts(plan[..|plan| - 1]) + [StartComponent(plan[|plan| - 1])]
  }

  /** The loop of PreloadEngines that collects the components to start. */
  method CollectComponents(names: seq<string>, list: seq<EngineDesc>, table: map<string, EngineDesc>,
                           components: map<ComponentId, Component>)
    returns (r: Result<seq<ComponentId>>)
    requires forall d :: d in list ==> d.owner in components
    requires forall n :: n in table ==> table[n].owner in components
    ensures r == PreloadPlan(names, 0, list, table, components, [])
  {
    var toStart: seq<ComponentId> := [];
    var i := 0;
    while i < |names|
      invariant 0 <= i <= |names|
      invariant PreloadPlan(names, 0, list, table, components, [])
                == PreloadPlan(names, i, list, table, components, toStart)
    {
      var desc := LookupDesc(list, table, names[i]);
      if desc.None? {
        return Err("Cannot find engine " + names[i] + ".");
      }
      var component := desc.value.owner;
      if components[component].factory.Some? {
        i := i + 1;
        continue;
      }
      var hasComponent := false;
      var j := 0;
      while j < |toStart|
        invariant 0 <= j <= |toStart|
        invariant component !in toStart[..j]
      {
        if component == toStart[j] {
          hasComponent := true;
          break;
        }
        assert toStart[..j + 1] == toStart[..j] + [toStart[j]];
        j := j + 1;
      }
      assert hasComponent <==> component in toStart by {
        if !hasComponent {
          assert toStart[..j] == toStart;
        }
      }
      if !hasComponent {
        toStart := toStart + [component];
      }
      i := i + 1;
    }
    return Ok(toStart);
  }

  // ---------------------------------------------------------------
  // Loading the catalog
  // ---------------------------------------------------------------

  /** Adds each engine to the catalog table unless its name is taken. */
  method InsertFirstWins(ghost prefix: seq<EngineDesc>, table: map<string, EngineDesc>,
                         descs: seq<EngineDesc>)
    returns (table': map<string, EngineDesc>)
    requires table == FirstWinsTable(prefix)
    ensures table' == FirstWinsTable(prefix + descs)
  {
    table' := table;
    var j := 0;
    assert prefix + descs[..0] == prefix;
    while j < |descs|
      invariant 0 <= j <= |descs|
      invariant table' == FirstWinsTable(prefix + descs[..j])
    {
      var d := descs[j];
      assert descs[..j + 1] == descs[..j] + [d];
      assert (prefix + descs[..j + 1])[..|prefix + descs[..j + 1]| - 1] == prefix + descs[..j];
      if d.name !in table' {
        table' := table'[d.name := d];
      }
      j := j + 1;
    }
    assert descs[..j] == descs;
  }

  lemma CatalogEnginesStep(catalog: seq<ComponentInfo>, i: nat)
    requires i < |catalog|
    ensures CatalogEngines(catalog[..i + 1]) == CatalogEngines(catalog[..i]) + Descs(catalog[i].engines, i)
  {
    assert catalog[..i + 1][..i] == catalog[..i];
  }

  /** The catalog components are numbered below the catalog's length,
      are not running, and own their engines. */
  lemma CatalogTableWellFormed(catalog: seq<ComponentInfo>, table: map<ComponentId, Component>)
    requires forall k: ComponentId :: k in table <==> k < |catalog|
    requires forall k :: 0 <= k < |catalog| ==> table[k] == FromInfo(catalog[k], k)
    ensures WellFormed([], table)
    ensures forall c :: c in table ==> c < |catalog| && table[c].factory.None?
    ensures forall n :: n in FirstWinsTable(CatalogEngines(catalog)) ==>
              FirstWinsTable(CatalogEngines(catalog))[n].owner in table
              && FirstWinsTable(CatalogEngines(catalog))[n].name == n
  {
    FirstWinsTableFrom(CatalogEngines(catalog));
    CatalogEnginesOwners(catalog);
  }

  /** Reads the catalog: one component per entry, numbered in catalog
      order and not running, and the table of catalog engines where the
      first component to provide an engine name keeps it. */
  method LoadCatalog(catalog: seq<ComponentInfo>)
    returns (ids: seq<ComponentId>, table: map<ComponentId, Component>,
             engines: map<string, EngineDesc>)
    ensures |ids| == |catalog| && forall k :: 0 <= k < |catalog| ==> ids[k] == k
    ensures forall k: ComponentId :: k in table <==> k < |catalog|
    ensures forall k :: 0 <= k < |catalog| ==> table[k] == FromInfo(catalog[k], k)
    ensures engines == FirstWinsTable(CatalogEngines(catalog))
  {
    ids := [];
    table := map[];
    engines := map[];
    var i := 0;
    while i < |catalog|
      invariant 0 <= i <= |catalog|
      invariant |ids| == i && forall k :: 0 <= k < i ==> ids[k] == k
      invariant forall k: ComponentId :: k in table <==> k < i
      invariant forall k :: 0 <= k < i ==> table[k] == FromInfo(catalog[k], k)
      invariant engines == FirstWinsTable(CatalogEngines(catalog[..i]))
    {
      var descs := Descs(catalog[i].engines, i);
      table := table[i := FromInfo(catalog[i], i)];
      ids := ids + [i];
      CatalogEnginesStep(catalog, i);
      engines := InsertFirstWins(CatalogEngines(catalog[..i]), engines, descs);
      i := i + 1;
    }
    assert catalog[..i] == catalog;
  }

  // ---------------------------------------------------------------
  // The registry
  // ---------------------------------------------------------------

  /**
   * The registry part of the daemon's state: the catalog components
   * (in catalog order), the registered components and their engines (in
   * registration order), the catalog engine table, and the component
   * records that both refer to.
   */
  class EngineRegistry {
    var componentTable: map<ComponentId, Component>
    var components: seq<ComponentId>
    var registeredComponents: seq<ComponentId>
    var registerEngineList: seq<EngineDesc>
    var engineTable: map<string, EngineDesc>
    var nextComponentId: nat
    var nextFactoryId: nat
    var effects: seq<Effect>

    predicate Valid()
      reads this
    {
      (forall i :: 0 <= i < |components| ==> components[i] in componentTable)
      && WellFormed(registeredComponents, componentTable)
      && (forall c :: c in componentTable ==> c < nextComponentId)
      && (forall c :: c in componentTable && componentTable[c].factory.Some? ==>
                        componentTable[c].factory.value < nextFactoryId)
      && registerEngineList == Flatten(registeredComponents, componentTable)
      && (forall n :: n in engineTable ==>
                        engineTable[n].owner in componentTable && engineTable[n].name == n)
    }

    /** Every engine the registry can serve belongs to a known component. */
    lemma OwnersKnown()
      requires Valid()
      ensures forall d :: d in registerEngineList ==> d.owner in componentTable
    {
      forall d | d in registerEngineList ensures d.owner in componentTable {
        FlattenOwners(registeredComponents, componentTable, d);
      }
    }

    /** Loads the catalog: one component per catalog entry, without a
        factory, and the engine table where the first component to
        provide an engine name keeps it. */
    constructor (catalog: seq<ComponentInfo>)
      ensures Valid()
      ensures |components| == |catalog|
      ensures forall i :: 0 <= i < |catalog| ==> components[i] == i
      ensures forall i: ComponentId :: i in componentTable <==> i < |catalog|
      ensures forall i :: 0 <= i < |catalog| ==>
                componentTable[i] == FromInfo(catalog[i], i)
      ensures engineTable == FirstWinsTable(CatalogEngines(catalog))
      ensures registeredComponents == [] && registerEngineList == []
      ensures effects == []
    {
      var ids, table, engines := LoadCatalog(catalog);
      components, componentTable, engineTable := ids, table, engines;
      registeredComponents := [];
      registerEngineList := [];
      nextComponentId := |catalog|;
      nextFactoryId := 0;
      effects := [];
      CatalogTableWellFormed(catalog, table);
    }

    /** The first registered engine of the given name. */
    method FindEngineDescByName(name: string) returns (r: Option<EngineDesc>)
      ensures r == FirstNamed(registerEngineList, name)
    {
      var list := registerEngineList;
      var i := 0;
      while i < |list|
        invariant 0 <= i <= |list|
        invariant FirstNamed(list, name) == FirstNamed(list[i..], name)
      {
        assert list[i..][1..] == list[i + 1..];
        if list[i].name == name {
          return Some(list[i]);
        }
        i := i + 1;
      }
      return None;
    }

    /** The engine served for a name: none for the empty name; the first
        registered engine of that name; else the catalog engine. */
    method GetEngineDesc(name: string) returns (r: Option<EngineDesc>)
      ensures r == LookupDesc(registerEngineList, engineTable, name)
    {
      if name == "" {
        return None;
      }
      r := FindEngineDescByName(name);
      if r.None? && name in engineTable {
        r := Some(engineTable[name]);
      }
    }

    /** The engine an input context gets when it asks for one by name;
        no name or the empty name asks for the default engine. */
    method RequestEngine(name: Option<string>) returns (r: Option<EngineDesc>)
      ensures var n := if name.None? || name.value == "" then DefaultEngine else name.value;
              r == LookupDesc(registerEngineList, engineTable, n)
    {
      var n := if name.None? || name.value == "" then DefaultEngine else name.value;
      r := GetEngineDesc(n);
    }

    /** The first catalog component with the given name. */
    method LookupComponentByName(name: string) returns (r: Option<ComponentId>)
      requires Valid()
      ensures r == FirstComponentNamed(components, componentTable, name)
    {
      var ids := components;
      var i := 0;
      while i < |ids|
        invariant 0 <= i <= |ids|
        invariant FirstComponentNamed(ids, componentTable, name)
                  == FirstComponentNamed(ids[i..], componentTable, name)
      {
        assert ids[i..][1..] == ids[i + 1..];
        if componentTable[ids[i]].name == name {
          return Some(ids[i]);
        }
        i := i + 1;
      }
      return None;
    }

    /** A running engine process registers its component: the request
        fails when the argument is not a component or no factory can be
        made for the caller's connection; otherwise the component is
        added, running through a new factory, and its engines are
        appended to the registered engine list. */
    method RegisterComponent(info: Option<ComponentInfo>, factoryCreated: bool)
      returns (reply: Result<ComponentId>)
      requires Valid()
      modifies this
      ensures Valid()
      ensures info.None? ==> reply == Err("The first argument should be an IBusComponent.")
      ensures info.Some? && !factoryCreated ==> reply == Err("Create factory failed.")
      ensures reply.Err? ==> unchanged(this)
      ensures reply.Ok? ==>
                info.Some? && factoryCreated
                && reply.value == old(nextComponentId)
                && reply.value !in old(componentTable)
                && componentTable == old(componentTable)[reply.value :=
                     Component(info.value.name, Descs(info.value.engines, reply.value),
                               Some(old(nextFactoryId)))]
                && registeredComponents == old(registeredComponents) + [reply.value]
                && registerEngineList
                   == old(registerEngineList) + Descs(info.value.engines, reply.value)
                && nextComponentId == old(nextComponentId) + 1
                && nextFactoryId == old(nextFactoryId) + 1
                && components == old(components) && engineTable == old(engineTable)
                && effects == old(effects)
    {
      if info.None? {
        return Err("The first argument should be an IBusComponent.");
      }
      if !factoryCreated {
        return Err("Create factory failed.");
      }
      var id := nextComponentId;
      var descs := Descs(info.value.engines, id);
      var comp := Component(info.value.name, descs, Some(nextFactoryId));
      RegisterAppends(registeredComponents, componentTable, id, comp);
      componentTable := componentTable[id := comp];
      registeredComponents := registeredComponents + [id];
      registerEngineList := registerEngineList + descs;
      nextComponentId := nextComponentId + 1;
      nextFactoryId := nextFactoryId + 1;
      reply := Ok(id);
    }

    /** A registered component is destroyed (its process went away): it
        leaves the registered list and each of its engines is taken out
        of the registered engine list. */
    method UnregisterComponent(c: ComponentId)
      requires Valid() && c in registeredComponents
      modifies this`registeredComponents, this`registerEngineList
      ensures Valid()
      ensures registeredComponents == RemoveFirst(old(registeredComponents), c)
      ensures registerEngineList == RemoveEach(old(registerEngineList), componentTable[c].engines)
      ensures forall d :: d in registerEngineList ==> d.owner != c
    {
      DestroyDropsEngines(registeredComponents, componentTable, c);
      var engines := componentTable[c].engines;
      var list := registerEngineList;
      var k := 0;
      while k < |engines|
        invariant 0 <= k <= |engines|
        invariant list == RemoveEach(old(registerEngineList), engines[..k])
        invariant unchanged(this)
      {
        assert engines[..k + 1][..k] == engines[..k];
        if engines[k] in list {
          list := RemoveFirst(list, engines[k]);
        } else {
          RemoveFirstAbsent(list, engines[k]);
        }
        k := k + 1;
      }
      assert engines[..k] == engines;
      registeredComponents := RemoveFirst(registeredComponents, c);
      registerEngineList := list;
    }

    /** The owner of a catalog component's bus name changed: a component
        whose process stopped loses its factory; one whose process
        started gets a new factory when its connection is known and the
        factory can be made. Names of no catalog component are ignored. */
    method NameOwnerChanged(name: string, oldOwner: string, newOwner: string,
                            connectionKnown: bool, factoryCreated: bool)
      requires Valid()
      modifies this`componentTable, this`nextFactoryId, this`effects
      ensures Valid()
      ensures var c := FirstComponentNamed(components, componentTable, name);
              c == FirstComponentNamed(old(components), old(componentTable), name)
      ensures var c := FirstComponentNamed(old(components), old(componentTable), name);
              var comp := if c.Some? then old(componentTable)[c.value] else Component("", [], None);
              var stopped := c.Some? && oldOwner != "" && comp.factory.Some?;
              var started := c.Some? && newOwner != "" && connectionKnown && factoryCreated;
              effects == old(effects) + (if stopped then [FactoryDestroyed(comp.factory.value)] else [])
              && nextFactoryId == old(nextFactoryId) + (if started then 1 else 0)
              && componentTable
                 == (if c.None? then old(componentTable)
                     else old(componentTable)[c.value :=
                            comp.(factory := if started then Some(old(nextFactoryId))
                                             else if stopped then None else comp.factory)])
    {
      var c := LookupComponentByName(name);
      if c.None? {
        return;
      }
      var comp := componentTable[c.value];
      if oldOwner != "" && comp.factory.Some? {
        // destroying the factory clears the component's factory
        effects := effects + [FactoryDestroyed(comp.factory.value)];
        comp := comp.(factory := None);
      }
      if newOwner != "" && connectionKnown && factoryCreated {
        comp := comp.(factory := Some(nextFactoryId));
        nextFactoryId := nextFactoryId + 1;
      }
      SetComponent(c.value, comp);
    }

    /** Replaces a component's record by one with the same name and
        engines. */
    method SetComponent(c: ComponentId, comp: Component)
      requires Valid() && c in componentTable
      requires comp.name == componentTable[c].name && comp.engines == componentTable[c].engines
      requires comp.factory.Some? ==> comp.factory.value < nextFactoryId
      modifies this`componentTable
      ensures Valid()
      ensures componentTable == old(componentTable)[c := comp]
      ensures forall n :: FirstComponentNamed(components, componentTable, n)
                          == FirstComponentNamed(components, old(componentTable), n)
    {
      ghost var oldTable := componentTable;
      componentTable := componentTable[c := comp];
      FlattenFrame(registeredComponents, oldTable, componentTable);
      forall n ensures FirstComponentNamed(components, componentTable, n)
                       == FirstComponentNamed(components, oldTable, n) {
        FirstComponentNamedFrame(components, oldTable, componentTable, n);
      }
    }

    /** PreloadEngines: starts, once each, the components of the named
        engines that are not running, and announces the new property
        value; an unknown engine name fails the request and starts
        nothing. */
    method SetPreloadEngines(names: seq<string>) returns (r: Result<()>)
      requires Valid()
      modifies this`effects
      ensures OwnersServed()
      ensures var plan := PreloadPlan(names, 0, registerEngineList, engineTable, componentTable, []);
              (r.Ok? <==> plan.Ok?)
              && (r.Err? ==> r.message == plan.message && effects == old(effects))
              && (r.Ok? ==> effects == old(effects) + Starts(plan.value)
                                       + [PropertyChanged("PreloadEngines", names)])
    {
      OwnersKnown();
      var plan := CollectComponents(names, registerEngineList, engineTable, componentTable);
      if plan.Err? {
        return Err(plan.message);
      }
      var toStart := plan.value;
      var started := effects;
      var j := 0;
      while j < |toStart|
        invariant 0 <= j <= |toStart|
        invariant started == effects + Starts(toStart[..j])
      {
        assert toStart[..j + 1][..j] == toStart[..j];
        started := started + [StartComponent(toStart[j])];
        j := j + 1;
      }
      assert toStart[..j] == toStart;
      effects := started + [PropertyChanged("PreloadEngines", names)];
      r := Ok(());
    }

    /** The owners of all served engines are known components. */
    predicate OwnersServed()
      reads this
    {
      (forall d :: d in registerEngineList ==> d.owner in componentTable)
      && (forall n :: n in engineTable ==> engineTable[n].owner in componentTable)
    }
  }
}
