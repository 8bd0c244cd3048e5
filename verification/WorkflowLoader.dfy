/** Snapshots on the heap: spliced in place while built, untouched once published (workflows/workflow-loader.ts). */
module WorkflowLoader {
  import opened Collections
  import opened RoutingIndex

  class RouteList {
    var items: seq<Workflow>

    constructor (items: seq<Workflow>)
      ensures this.items == items
    {
      this.items := items;
    }
  }

  // The three maps of a snapshot are objects of their own, which two snapshots could share.

  class EndpointMap {
    var entries: map<string, Endpoint>

    constructor (entries: map<string, Endpoint>)
      ensures this.entries == entries
    {
      this.entries := entries;
    }
  }

  class WorkflowMap {
    var entries: map<string, Workflow>

    constructor (entries: map<string, Workflow>)
      ensures this.entries == entries
    {
      this.entries := entries;
    }
  }

  /** event type -> list, for one endpoint; no list is shared between event types */
  class TypeTable {
    var lists: map<string, RouteList>
    ghost var contents: map<string, seq<Workflow>>
    ghost var Repr: set<object>

    ghost predicate Valid()
      reads this, Repr
    {
      && this in Repr
      && lists.Keys == contents.Keys
      && (forall t :: t in lists ==> lists[t] in Repr && lists[t].items == contents[t])
      && (forall t, t' :: t in lists && t' in lists && lists[t] == lists[t'] ==> t == t')
    }

    lemma Shown()
      requires Valid()
      ensures lists.Keys == contents.Keys && forall t :: t in lists ==> lists[t].items == contents[t]
    {
    }

    constructor ()
      ensures Valid() && fresh(Repr) && contents == map[]
    {
      lists := map[];
      contents := map[];
      Repr := {this};
    }

    method Splice(t: string, id: string)
      requires Valid() && t in lists
      modifies Repr
      ensures Valid() && Repr == old(Repr)
      ensures contents == old(contents)[t := Spliced(old(contents)[t], id)]
    {
      var list := lists[t];
      var i := IndexOf(list.items, id);
      contents := contents[t := Spliced(list.items, id)];
      if i < |list.items| {
        list.items := list.items[..i] + list.items[i + 1..];
      }
    }

    /** A list of its own for a new event type. */
    method SetList(t: string, items: seq<Workflow>)
      requires Valid() && t !in lists
      modifies this
      ensures Valid() && fresh(Repr - old(Repr))
      ensures contents == old(contents)[t := items]
    {
      var list := new RouteList(items);
      lists := lists[t := list];
      contents := contents[t := items];
      Repr := Repr + {list};
    }

    method Push(w: Workflow)
      requires Valid()
      modifies Repr
      ensures Valid() && fresh(Repr - old(Repr))
      ensures
        var t, c := w.triggerEvent, old(contents);
        contents == c[t := (if t in c then c[t] else []) + [w]]
    {
      var t := w.triggerEvent;
      if t in lists {
        var list := lists[t];
        list.items := list.items + [w];
        contents := contents[t := list.items];
      } else {
        SetList(t, [w]);
        assert [] + [w] == [w];
      }
    }

    method Clone() returns (copy: TypeTable)
      requires Valid()
      ensures copy.Valid() && fresh(copy.Repr) && copy.contents == contents
    {
      Shown();
      copy := new TypeTable();
      hide Valid;
      var todo := lists.Keys;
      while todo != {}
        invariant todo <= lists.Keys
        invariant copy.Valid() && fresh(copy.Repr)
        invariant copy.contents.Keys == lists.Keys - todo
        invariant forall t :: t in copy.contents ==> copy.contents[t] == contents[t]
        decreases todo
      {
        var t :| t in todo;
        copy.Shown();
        copy.SetList(t, lists[t].items);
        todo := todo - {t};
      }
    }
  }

  class RouteMap {
    var entries: map<string, TypeTable>

    constructor (entries: map<string, TypeTable>)
      ensures this.entries == entries
    {
      this.entries := entries;
    }
  }

  class Snapshot {
    const endpoints: EndpointMap
    const workflows: WorkflowMap
    const routes: RouteMap
    ghost var contents: Table
    ghost var Repr: set<object>

    /** The snapshot itself and its three maps. */
    ghost function Own(): set<object> { {this, endpoints, workflows, routes} }

    ghost predicate Holds(e: string)
      requires e in routes.entries
      reads this, Repr, routes, routes.entries[e], routes.entries[e].Repr
    {
      var table := routes.entries[e];
      && e in contents.routes
      && table in Repr && table.Repr <= Repr - Own()
      && table.Valid() && table.contents == contents.routes[e]
    }

    ghost predicate Valid()
      reads this, Repr
    {
      && Own() <= Repr
      && contents.endpoints == endpoints.entries && contents.workflows == workflows.entries
      && contents.routes.Keys == routes.entries.Keys
      && (forall e :: e in routes.entries ==> routes.entries[e] in Repr && routes.entries[e].Repr <= Repr && Holds(e))
      && (forall e, e' :: e in routes.entries && e' in routes.entries && e != e' ==>
          routes.entries[e].Repr !! routes.entries[e'].Repr)
    }

    lemma Shown()
      requires Valid()
      ensures contents.endpoints == endpoints.entries && contents.workflows == workflows.entries
      ensures contents.routes.Keys == routes.entries.Keys
      ensures this in Repr && endpoints in Repr && workflows in Repr && routes in Repr
    {
    }

    constructor (endpoints: map<string, Endpoint>, workflows: map<string, Workflow>)
      ensures Valid() && fresh(Repr) && contents == NOTHING.(endpoints := endpoints, workflows := workflows)
    {
      this.endpoints := new EndpointMap(endpoints);
      this.workflows := new WorkflowMap(workflows);
      this.routes := new RouteMap(map[]);
      contents := NOTHING.(endpoints := endpoints, workflows := workflows);
      new;
      Repr := Own();
    }

    method SetEndpoint(x: Endpoint)
      requires Valid()
      modifies endpoints, this`contents
      ensures Valid()
      ensures contents == old(contents).(endpoints := old(contents).endpoints[x.slug := x])
    {
      endpoints.entries := endpoints.entries[x.slug := x];
      contents := contents.(endpoints := endpoints.entries);
    }

    /** Changing one table leaves the snapshot valid. */
    twostate lemma OneTableChanged(e: string)
      requires old(Valid()) && e in old(routes.entries)
      requires routes.entries == old(routes.entries) && endpoints.entries == old(endpoints.entries) &&
               workflows.entries == old(workflows.entries)
      requires routes.entries[e].Valid() && fresh(routes.entries[e].Repr - old(routes.entries[e].Repr))
      requires Own() !! routes.entries[e].Repr
      requires forall o :: o in old(Repr) && o != this && o !in old(routes.entries[e].Repr) ==> unchanged(o)
      requires contents == old(contents).(routes := old(contents).routes[e := routes.entries[e].contents])
      requires Repr == old(Repr) + routes.entries[e].Repr
      ensures Valid()
    {
      forall e' | e' in routes.entries
        ensures Holds(e')
      {
        assert old(Holds(e'));
        if e' != e {
          assert old(routes.entries[e'].Repr) !! old(routes.entries[e].Repr);
          assert routes.entries[e'] in old(routes.entries[e'].Repr);
        }
      }
      forall e', e'' | e' in routes.entries && e'' in routes.entries && e' != e''
        ensures routes.entries[e'].Repr !! routes.entries[e''].Repr
      {
        assert old(Holds(e')) && old(Holds(e''));
        assert old(routes.entries[e'].Repr) !! old(routes.entries[e''].Repr);
      }
    }

    method SpliceList(e: string, t: string, id: string)
      requires Valid() && e in routes.entries && t in routes.entries[e].lists
      modifies Repr
      ensures Valid() && Repr == old(Repr) && routes.entries == old(routes.entries) &&
              workflows.entries == old(workflows.entries)
      ensures contents == old(contents).(routes := WithList(old(contents).routes, e, t,
                                                            Spliced(old(contents).routes[e][t], id)))
    {
      assert Holds(e);
      var table := routes.entries[e];
      table.Splice(t, id);
      contents := contents.(routes := contents.routes[e := table.contents]);
      hide Holds, Valid, Spliced;
      OneTableChanged(e);
    }

    method RemovePrevious(id: string)
      requires Valid()
      modifies Repr
      ensures Valid() && Repr == old(Repr) && contents == old(contents).(routes := Unrouted(old(contents), id))
    {
      if id in workflows.entries {
        var p := workflows.entries[id];
        if p.endpointId in routes.entries {
          assert Holds(p.endpointId);
          if p.triggerEvent in routes.entries[p.endpointId].lists {
            SpliceList(p.endpointId, p.triggerEvent, id);
          }
        }
      }
    }

    /** A table that nobody else has, for an endpoint that has none. */
    method SetTable(e: string, table: TypeTable)
      requires Valid() && e !in routes.entries && table.Valid() && table.Repr !! Repr
      modifies this`contents, this`Repr, routes
      ensures Valid() && Repr == old(Repr) + table.Repr && e in routes.entries
      ensures contents == old(contents).(routes := old(contents).routes[e := table.contents])
    {
      routes.entries := routes.entries[e := table];
      contents := contents.(routes := contents.routes[e := table.contents]);
      Repr := Repr + table.Repr;
      forall e' | e' in routes.entries
        ensures Holds(e')
      {
        assert e' != e ==> old(Holds(e'));
      }
    }

    method PushTo(w: Workflow)
      requires Valid() && w.endpointId in routes.entries
      modifies Repr
      ensures Valid() && fresh(Repr - old(Repr))
      ensures
        var r, e, t := old(contents).routes, w.endpointId, w.triggerEvent;
        contents == old(contents).(routes := WithList(r, e, t, ListOf(r, e, t) + [w]))
    {
      assert Holds(w.endpointId);
      var table := routes.entries[w.endpointId];
      table.Push(w);
      contents := contents.(routes := contents.routes[w.endpointId := table.contents]);
      Repr := Repr + table.Repr;
      hide Holds, Valid;
      OneTableChanged(w.endpointId);
    }

    method SetWorkflow(w: Workflow)
      requires Valid()
      modifies workflows, this`contents
      ensures Valid() && contents == old(contents).(workflows := old(contents).workflows[w.id := w])
    {
      workflows.entries := workflows.entries[w.id := w];
      contents := contents.(workflows := workflows.entries);
    }

    /** addWorkflow */
    method Add(w: Workflow)
      requires Valid()
      modifies Repr
      ensures Valid() && fresh(Repr - old(Repr))
      ensures contents == Added(old(contents), w)
    {
      hide Unrouted, Holds, Valid, WithList, ListOf;
      Shown();
      RemovePrevious(w.id);
      SetWorkflow(w);
      Shown();
      if w.endpointId !in routes.entries {
        EmptyTableIsInvisible(contents.routes, w.endpointId, w.triggerEvent, w);
        var table := new TypeTable();
        SetTable(w.endpointId, table);
      }
      PushTo(w);
    }

    method CloneTable(e: string) returns (table: TypeTable)
      requires Valid() && e in routes.entries
      ensures table.Valid() && fresh(table.Repr) && table.contents == contents.routes[e]
    {
      assert Holds(e);
      assert routes.entries[e].Valid() && routes.entries[e].contents == contents.routes[e];
      hide Holds, Valid, TypeTable.Valid;
      table := routes.entries[e].Clone();
    }

    /** A table of its own for one more endpoint. */
    method CopyTable(e: string, copy: Snapshot, ghost todo: set<string>)
      requires Valid() && e in routes.entries && e in todo
      requires copy.Valid() && copy.Repr !! Repr &&
               copy.contents == contents.(routes := RoutesBut(contents.routes, todo))
      modifies copy`contents, copy`Repr, copy.routes
      ensures copy.Valid() && fresh(copy.Repr - old(copy.Repr))
      ensures copy.contents == old(contents).(routes := RoutesBut(old(contents).routes, todo - {e}))
    {
      Shown();
      copy.Shown();
      OneMoreRoute(contents.routes, todo, e);
      hide Holds, Valid, RoutesBut, TypeTable.Valid, Own;
      var table := CloneTable(e);
      copy.SetTable(e, table);
    }

    /** cloneSnapshot: no map or list of the copy is one of the original's. */
    method Clone() returns (copy: Snapshot)
      requires Valid()
      ensures copy.Valid() && fresh(copy.Repr) && copy.contents == contents
    {
      Shown();
      copy := new Snapshot(endpoints.entries, workflows.entries);
      AllOrNoRoutes(contents.routes);
      hide Holds, Valid, RoutesBut, Own;
      var todo := routes.entries.Keys;
      while todo != {}
        invariant todo <= routes.entries.Keys
        invariant copy.Valid() && fresh(copy.Repr)
        invariant copy.contents == contents.(routes := RoutesBut(contents.routes, todo))
        decreases todo
      {
        var e :| e in todo;
        copy.Shown();
        CopyTable(e, copy, todo);
        todo := todo - {e};
      }
    }
  }

  function RoutesBut(r: Routes, todo: set<string>): Routes {
    map e | e in r && e !in todo :: r[e]
  }

  lemma AllOrNoRoutes(r: Routes)
    ensures RoutesBut(r, {}) == r && RoutesBut(r, r.Keys) == map[]
  {
  }

  lemma OneMoreRoute(r: Routes, todo: set<string>, e: string)
    requires e in todo && e in r
    ensures e !in RoutesBut(r, todo) && RoutesBut(r, todo)[e := r[e]] == RoutesBut(r, todo - {e})
  {
  }

  lemma EmptyTableIsInvisible(r: Routes, e: string, t: string, w: Workflow)
    requires e !in r
    ensures WithList(r[e := map[]], e, t, ListOf(r[e := map[]], e, t) + [w]) == WithList(r, e, t, ListOf(r, e, t) + [w])
  {
  }

  // ---- what the repository returns ----

  /** `usable` is false for a row that cannot be decrypted or compiled. */
  datatype EndpointRow = EndpointRow(endpoint: Endpoint, usable: bool)

  datatype WorkflowRow = WorkflowRow(workflow: Workflow, usable: bool, active: bool)

  function WithEndpoints(s: Table, rows: seq<EndpointRow>): Table {
    if rows == [] then s
    else
      var before := WithEndpoints(s, rows[..|rows| - 1]);
      var row := rows[|rows| - 1];
      if row.usable then before.(endpoints := before.endpoints[row.endpoint.slug := row.endpoint]) else before
  }

  /** The workflows of `rows` that are usable, and whose endpoint is in `among` unless that is `None`. */
  function WithWorkflows(s: Table, rows: seq<WorkflowRow>, among: Option<set<string>>): Table {
    if rows == [] then s
    else
      var before := WithWorkflows(s, rows[..|rows| - 1], among);
      var row := rows[|rows| - 1];
      if row.usable && (among == None || row.workflow.endpointId in among.value) then Added(before, row.workflow)
      else before
  }

  function EndpointIds(endpoints: map<string, Endpoint>): set<string> {
    set slug | slug in endpoints :: endpoints[slug].id
  }

  function Rebuilt(endpoints: seq<EndpointRow>, workflows: seq<WorkflowRow>): Table {
    var s := WithEndpoints(NOTHING, endpoints);
    WithWorkflows(s, workflows, Some(EndpointIds(s.endpoints)))
  }

  class Loader {
    var snapshot: Snapshot
    var negative: map<string, real>
    var ready: bool
    const negativeTtlMs: real

    ghost predicate Valid()
      reads this, snapshot, snapshot.Repr
    {
      snapshot.Valid()
    }

    constructor (negativeTtlMs: real)
      ensures Valid() && fresh(snapshot.Repr) && snapshot.contents == NOTHING && negative == map[] && !ready
    {
      snapshot := new Snapshot(map[], map[]);
      negative, ready := map[], false;
      this.negativeTtlMs := negativeTtlMs;
    }

    /** One pass of `reload`, once the rows are there. */
    method SwapIn(endpoints: seq<EndpointRow>, workflows: seq<WorkflowRow>)
      requires Valid()
      modifies this
      ensures Valid() && fresh(snapshot.Repr) && snapshot.contents == Rebuilt(endpoints, workflows)
      ensures negative == map[] && ready
    {
      hide Snapshot.Valid, Snapshot.Holds, WithWorkflows;
      var next := new Snapshot(map[], map[]);
      var i := 0;
      while i < |endpoints|
        invariant 0 <= i <= |endpoints|
        invariant next.Valid() && fresh(next.Repr) && next.contents == WithEndpoints(NOTHING, endpoints[..i])
      {
        assert endpoints[..i + 1][..i] == endpoints[..i];
        if endpoints[i].usable {
          next.Shown();
          next.SetEndpoint(endpoints[i].endpoint);
        }
        i := i + 1;
      }
      assert endpoints[..i] == endpoints;
      next.Shown();
      AddAll(next, workflows, Some(EndpointIds(next.endpoints.entries)));
      snapshot, negative, ready := next, map[], true;
    }

    method AddAll(next: Snapshot, rows: seq<WorkflowRow>, among: Option<set<string>>)
      requires next.Valid()
      modifies next.Repr
      ensures next.Valid() && fresh(next.Repr - old(next.Repr))
      ensures next.contents == WithWorkflows(old(next.contents), rows, among)
    {
      var i := 0;
      while i < |rows|
        invariant 0 <= i <= |rows|
        invariant next.Valid() && fresh(next.Repr - old(next.Repr))
        invariant next.contents == WithWorkflows(old(next.contents), rows[..i], among)
      {
        assert rows[..i + 1][..i] == rows[..i];
        var row := rows[i];
        if row.usable && (among == None || row.workflow.endpointId in among.value) {
          next.Add(row.workflow);
        }
        i := i + 1;
      }
      assert rows[..i] == rows;
    }

    /** What an endpoint lookup decides before it asks the repository, if it has to. It changes nothing. */
    method CheckEndpoint(slug: string, now: real, hasBudget: bool) returns (r: Check<Endpoint>)
      requires Valid()
      ensures r == EndpointChecked(snapshot.contents, negative, slug, now, hasBudget)
    {
      snapshot.Shown();
      if slug in snapshot.endpoints.entries {
        return Answered(Some(snapshot.endpoints.entries[slug]));
      }
      if slug in negative && negative[slug] > now {
        return Answered(None);
      }
      if !hasBudget {
        return Answered(None);
      }
      return MustLoad;
    }

    /** The rest of the lookup once the repository has answered, on whatever snapshot is current by then. */
    method FinishEndpoint(slug: string, now: real, loaded: Loaded) returns (r: Option<Endpoint>)
      requires Valid()
      modifies this
      ensures Valid() && (snapshot == old(snapshot) || fresh(snapshot.Repr)) && ready == old(ready)
      ensures snapshot.contents == EndpointFinished(old(snapshot.contents), loaded)
      ensures Usable(loaded) ==> negative == old(negative) && r == Some(loaded.value.0.endpoint)
      ensures !Usable(loaded) ==> negative == Remembered(old(negative), slug, now + negativeTtlMs) && r == None
    {
      if loaded == None || !loaded.value.0.usable {
        if |negative| > 10_000 {
          negative := map[];
        }
        negative := negative[slug := now + negativeTtlMs];
        return None;
      }
      hide Snapshot.Valid, Snapshot.Holds, WithWorkflows;
      Publish(loaded.value.0.endpoint, loaded.value.1);
      return Some(loaded.value.0.endpoint);
    }

    /** A lookup that nothing interrupts. */
    method ResolveEndpoint(slug: string, now: real, hasBudget: bool, loaded: Loaded) returns (r: Option<Endpoint>)
      requires Valid()
      modifies this
      ensures Valid() && (snapshot == old(snapshot) || fresh(snapshot.Repr)) && ready == old(ready)
      ensures
        match EndpointChecked(old(snapshot.contents), old(negative), slug, now, hasBudget)
        case Answered(found) => snapshot == old(snapshot) && negative == old(negative) && r == found
        case MustLoad =>
          && snapshot.contents == EndpointFinished(old(snapshot.contents), loaded)
          && negative == (if Usable(loaded) then old(negative)
                          else Remembered(old(negative), slug, now + negativeTtlMs))
          && r == (if Usable(loaded) then Some(loaded.value.0.endpoint) else None)
    {
      hide EndpointFinished, EndpointChecked;
      var check := CheckEndpoint(slug, now, hasBudget);
      if check.Answered? {
        return check.found;
      }
      r := FinishEndpoint(slug, now, loaded);
    }

    /** Copy on write: readers that hold the old snapshot are unaffected. */
    method Publish(endpoint: Endpoint, rows: seq<WorkflowRow>)
      requires Valid()
      modifies this`snapshot
      ensures Valid() && fresh(snapshot.Repr)
      ensures
        var s := old(snapshot.contents);
        snapshot.contents == WithWorkflows(s.(endpoints := s.endpoints[endpoint.slug := endpoint]), rows, None)
    {
      var next := snapshot.Clone();
      next.SetEndpoint(endpoint);
      AddAll(next, rows, None);
      snapshot := next;
    }

    method CheckWorkflow(id: string, minVersion: nat) returns (r: Check<Workflow>)
      requires Valid()
      ensures r == WorkflowChecked(snapshot.contents, id, minVersion)
    {
      snapshot.Shown();
      if id in snapshot.workflows.entries && snapshot.workflows.entries[id].version >= minVersion {
        return Answered(Some(snapshot.workflows.entries[id]));
      }
      return MustLoad;
    }

    /** `Err` is a definition that does not compile; the worker asks for one workflow and wants to know. */
    method FinishWorkflow(row: Option<WorkflowRow>) returns (r: Result<Option<Workflow>, ()>)
      requires Valid()
      modifies this`snapshot
      ensures Valid() && (snapshot == old(snapshot) || fresh(snapshot.Repr))
      ensures (snapshot.contents, r) == WorkflowFinished(old(snapshot.contents), row)
    {
      hide Snapshot.Valid, Snapshot.Holds, Added;
      if row == None || !row.value.active {
        return Ok(None);
      }
      if !row.value.usable {
        return Err(());
      }
      var next := snapshot.Clone();
      next.Add(row.value.workflow);
      snapshot := next;
      return Ok(Some(row.value.workflow));
    }

    /** A lookup that nothing interrupts. */
    method ResolveWorkflow(id: string, minVersion: nat, row: Option<WorkflowRow>)
      returns (r: Result<Option<Workflow>, ()>)
      requires Valid()
      modifies this`snapshot
      ensures Valid() && (snapshot == old(snapshot) || fresh(snapshot.Repr))
      ensures
        match WorkflowChecked(old(snapshot.contents), id, minVersion)
        case Answered(found) => snapshot == old(snapshot) && r == Ok(found)
        case MustLoad => (snapshot.contents, r) == WorkflowFinished(old(snapshot.contents), row)
    {
      hide WorkflowFinished, WorkflowChecked;
      var check := CheckWorkflow(id, minVersion);
      if check.Answered? {
        return Ok(check.found);
      }
      r := FinishWorkflow(row);
    }

    /** The snapshot's own list where one will do; an array of its own otherwise. */
    method WorkflowsFor(e: string, t: string) returns (found: RouteList)
      requires Valid()
      ensures found.items == Matches(snapshot.contents.routes, e, t)
      ensures
        var tables := snapshot.routes.entries;
        var exact := e in tables && t in tables[e].lists;
        var wildcard := e in tables && t != "*" && "*" in tables[e].lists;
        && (exact && !wildcard ==> found == tables[e].lists[t])
        && (!exact && wildcard ==> found == tables[e].lists["*"])
        && (exact && wildcard ==> fresh(found))
    {
      if e !in snapshot.routes.entries {
        found := new RouteList([]);
        return;
      }
      assert snapshot.Holds(e);
      var byType := snapshot.routes.entries[e].lists;
      if t == "*" || "*" !in byType {
        if t in byType {
          return byType[t];
        }
        found := new RouteList([]);
        return;
      }
      if t !in byType {
        return byType["*"];
      }
      found := new RouteList(byType[t].items + byType["*"].items);
    }

    /**
     * Any sequence of reloads and on-demand loads. A load is finished on whatever snapshot is current by then; its
     * check came earlier and changed nothing.
     */
    method Perform(ops: seq<Op>)
      requires Valid() && Agrees(snapshot.contents)
      modifies this
      ensures Valid() && Agrees(snapshot.contents)
      ensures forall o :: o in old(snapshot.Repr) && o != this ==> unchanged(o)
    {
      var i := 0;
      while i < |ops|
        invariant 0 <= i <= |ops| && Valid() && Agrees(snapshot.contents)
        invariant snapshot == old(snapshot) || fresh(snapshot.Repr)
      {
        hide Agrees, Rebuilt, EndpointFinished, WorkflowFinished, Snapshot.Valid;
        ghost var s := snapshot.contents;
        match ops[i] {
          case Reload(endpoints, workflows) =>
            RebuiltAgrees(endpoints, workflows);
            SwapIn(endpoints, workflows);
          case EndpointLoaded(slug, now, loaded) =>
            EndpointFinishedAgrees(s, loaded);
            var _ := FinishEndpoint(slug, now, loaded);
          case WorkflowLoaded(row) =>
            WorkflowFinishedAgrees(s, row);
            var _ := FinishWorkflow(row);
        }
        i := i + 1;
      }
    }

    /** An array handed out before stays as it was, whatever is loaded afterwards. */
    method LookUpThenLoad(e: string, t: string, ops: seq<Op>) returns (found: RouteList)
      requires Valid() && Agrees(snapshot.contents)
      modifies this
      ensures Valid() && Agrees(snapshot.contents)
      ensures found.items == Matches(old(snapshot.contents).routes, e, t)
    {
      hide Agrees;
      found := WorkflowsFor(e, t);
      Perform(ops);
    }
  }

  /** What the repository answers when asked for one endpoint. */
  type Loaded = Option<(EndpointRow, seq<WorkflowRow>)>

  /** A lookup is answered from memory, or has to ask the repository. */
  datatype Check<T> = Answered(found: Option<T>) | MustLoad

  datatype Op =
    | Reload(endpoints: seq<EndpointRow>, workflows: seq<WorkflowRow>)
    | EndpointLoaded(slug: string, now: real, loaded: Loaded)
    | WorkflowLoaded(row: Option<WorkflowRow>)

  predicate Usable(loaded: Loaded) {
    loaded.Some? && loaded.value.0.usable
  }

  function EndpointChecked(s: Table, negative: map<string, real>, slug: string, now: real, hasBudget: bool)
    : Check<Endpoint>
  {
    if slug in s.endpoints then Answered(Some(s.endpoints[slug]))
    else if (slug in negative && negative[slug] > now) || !hasBudget then Answered(None)
    else MustLoad
  }

  function EndpointFinished(s: Table, loaded: Loaded): Table {
    if !Usable(loaded) then s
    else
      var endpoint := loaded.value.0.endpoint;
      WithWorkflows(s.(endpoints := s.endpoints[endpoint.slug := endpoint]), loaded.value.1, None)
  }

  /** The negative cache with one more slug; it is emptied first when it has grown too large. */
  function Remembered(negative: map<string, real>, slug: string, until: real): map<string, real> {
    (if |negative| > 10_000 then map[] else negative)[slug := until]
  }

  function WorkflowChecked(s: Table, id: string, minVersion: nat): Check<Workflow> {
    if id in s.workflows && s.workflows[id].version >= minVersion then Answered(Some(s.workflows[id])) else MustLoad
  }

  function WorkflowFinished(s: Table, row: Option<WorkflowRow>): (Table, Result<Option<Workflow>, ()>) {
    if row == None || !row.value.active then (s, Ok(None))
    else if !row.value.usable then (s, Err(()))
    else (Added(s, row.value.workflow), Ok(Some(row.value.workflow)))
  }

  lemma {:induction false} EndpointsLeaveRoutes(s: Table, rows: seq<EndpointRow>)
    ensures WithEndpoints(s, rows).workflows == s.workflows && WithEndpoints(s, rows).routes == s.routes
  {
    if rows != [] {
      EndpointsLeaveRoutes(s, rows[..|rows| - 1]);
    }
  }

  /** Agreement is about the workflows and the routes. */
  lemma SameRoutesAgree(s: Table, s': Table)
    requires Agrees(s) && s'.workflows == s.workflows && s'.routes == s.routes
    ensures Agrees(s')
  {
    forall e, t
      ensures AgreesAt(s', e, t)
    {
      assert AgreesAt(s, e, t);
    }
  }

  lemma {:induction false} WithWorkflowsAgrees(s: Table, rows: seq<WorkflowRow>, among: Option<set<string>>)
    requires Agrees(s)
    ensures Agrees(WithWorkflows(s, rows, among))
  {
    if rows != [] {
      var before := WithWorkflows(s, rows[..|rows| - 1], among);
      WithWorkflowsAgrees(s, rows[..|rows| - 1], among);
      AddedAgrees(before, rows[|rows| - 1].workflow);
      hide Agrees, Added;
    }
  }

  lemma RebuiltAgrees(endpoints: seq<EndpointRow>, workflows: seq<WorkflowRow>)
    ensures Agrees(Rebuilt(endpoints, workflows))
  {
    var s := WithEndpoints(NOTHING, endpoints);
    EndpointsLeaveRoutes(NOTHING, endpoints);
    SameRoutesAgree(NOTHING, s);
    WithWorkflowsAgrees(s, workflows, Some(EndpointIds(s.endpoints)));
  }

  lemma EndpointFinishedAgrees(s: Table, loaded: Loaded)
    requires Agrees(s)
    ensures Agrees(EndpointFinished(s, loaded))
  {
    if loaded.Some? {
      var endpoint := loaded.value.0.endpoint;
      var s' := s.(endpoints := s.endpoints[endpoint.slug := endpoint]);
      SameRoutesAgree(s, s');
      WithWorkflowsAgrees(s', loaded.value.1, None);
      hide Agrees, WithWorkflows;
    }
  }

  lemma WorkflowFinishedAgrees(s: Table, row: Option<WorkflowRow>)
    requires Agrees(s)
    ensures Agrees(WorkflowFinished(s, row).0)
  {
    if row.Some? {
      AddedAgrees(s, row.value.workflow);
      hide Agrees, Added;
    }
  }

  /**
   * A load that resumes after a reload publishes what it read before. Events are routed to the workflow it loaded,
   * older or not; a worker that asks for the version served before asks the repository again if and only if it was
   * older.
   */
  lemma LateLoadIsServed(s: Table, row: WorkflowRow, t: string)
    requires Agrees(s) && row.active && row.usable && row.workflow.id in s.workflows
    ensures
      var w, newer := row.workflow, s.workflows[row.workflow.id];
      var s' := WorkflowFinished(s, Some(row)).0;
      && (forall x :: x in Matches(s'.routes, w.endpointId, t) && x.id == w.id ==> x == w)
      && (w.triggerEvent == t ==> w in Matches(s'.routes, w.endpointId, t))
      && (newer != w ==> newer !in Matches(s'.routes, newer.endpointId, t))
      && (WorkflowChecked(s', w.id, newer.version) == MustLoad <==> w.version < newer.version)
  {
    var w, s' := row.workflow, WorkflowFinished(s, Some(row)).0;
    AddedAgrees(s, w);
    hide Agrees, Matches;
    MatchesIsTheFilter(s', w.endpointId, t);
    MatchesIsTheFilter(s', s.workflows[w.id].endpointId, t);
    assert s'.workflows == s.workflows[w.id := w];
    assert s.workflows[w.id].id == w.id by {
      IdsMatch(s, w.id);
    }
  }

  lemma IdsMatch(s: Table, id: string)
    requires Agrees(s) && id in s.workflows
    ensures s.workflows[id].id == id
  {
  }

  ghost predicate OnlyAmong(s: Table, among: set<string>) {
    forall id :: id in s.workflows ==> s.workflows[id].endpointId in among
  }

  lemma {:induction false} OnlyLoadedEndpoints(s: Table, rows: seq<WorkflowRow>, among: set<string>)
    requires OnlyAmong(s, among)
    ensures OnlyAmong(WithWorkflows(s, rows, Some(among)), among)
  {
    if rows != [] {
      var before, row := WithWorkflows(s, rows[..|rows| - 1], Some(among)), rows[|rows| - 1];
      OnlyLoadedEndpoints(s, rows[..|rows| - 1], among);
      if row.usable && row.workflow.endpointId in among {
        assert Added(before, row.workflow).workflows == before.workflows[row.workflow.id := row.workflow];
        assert OnlyAmong(Added(before, row.workflow), among);
      }
    }
  }

  /** After a reload only workflows of endpoints that were loaded are served. */
  lemma ReloadServesLoadedEndpoints(endpoints: seq<EndpointRow>, workflows: seq<WorkflowRow>, e: string, t: string)
    ensures
      var s := Rebuilt(endpoints, workflows);
      forall w :: w in Matches(s.routes, e, t) ==>
        w.endpointId in EndpointIds(WithEndpoints(NOTHING, endpoints).endpoints)
  {
    var s, start := Rebuilt(endpoints, workflows), WithEndpoints(NOTHING, endpoints);
    EndpointsLeaveRoutes(NOTHING, endpoints);
    OnlyLoadedEndpoints(start, workflows, EndpointIds(start.endpoints));
    RebuiltAgrees(endpoints, workflows);
    MatchesIsTheFilter(s, e, t);
  }
}
