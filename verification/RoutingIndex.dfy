/** The routing index of a workflow snapshot as a value (workflows/workflow-loader.ts). */
module RoutingIndex {
  datatype Endpoint = Endpoint(id: string, slug: string)

  datatype Workflow = Workflow(id: string, endpointId: string, triggerEvent: string, version: nat)

  /** endpoint id -> event type or "*" -> workflows */
  type Routes = map<string, map<string, seq<Workflow>>>

  datatype Table = Table(endpoints: map<string, Endpoint>, workflows: map<string, Workflow>, routes: Routes)

  const NOTHING := Table(map[], map[], map[])

  predicate HasList(r: Routes, e: string, t: string) {
    e in r && t in r[e]
  }

  function ListOf(r: Routes, e: string, t: string): seq<Workflow> {
    if HasList(r, e, t) then r[e][t] else []
  }

  function WithList(r: Routes, e: string, t: string, list: seq<Workflow>): Routes {
    r[e := (if e in r then r[e] else map[])[t := list]]
  }

  /** The index of the first workflow with this id, or the length. */
  function IndexOf(list: seq<Workflow>, id: string): (i: nat)
    ensures i <= |list|
    ensures i < |list| ==> list[i].id == id
    ensures forall k :: 0 <= k < i ==> list[k].id != id
  {
    if list == [] || list[0].id == id then 0 else 1 + IndexOf(list[1..], id)
  }

  function Spliced(list: seq<Workflow>, id: string): seq<Workflow> {
    var i := IndexOf(list, id);
    if i < |list| then list[..i] + list[i + 1..] else list
  }

  /** The routes once the previous version of a workflow has left them. */
  function Unrouted(s: Table, id: string): Routes {
    if id in s.workflows && HasList(s.routes, s.workflows[id].endpointId, s.workflows[id].triggerEvent) then
      var p := s.workflows[id];
      WithList(s.routes, p.endpointId, p.triggerEvent, Spliced(ListOf(s.routes, p.endpointId, p.triggerEvent), id))
    else s.routes
  }

  function Added(s: Table, w: Workflow): Table {
    var r := Unrouted(s, w.id);
    s.(workflows := s.workflows[w.id := w],
       routes := WithList(r, w.endpointId, w.triggerEvent, ListOf(r, w.endpointId, w.triggerEvent) + [w]))
  }

  /** Exact matches, then the wildcard ones. */
  function Matches(r: Routes, e: string, t: string): seq<Workflow> {
    ListOf(r, e, t) + if t == "*" then [] else ListOf(r, e, "*")
  }

  // ---- the index agrees with the workflows ----

  predicate Routed(w: Workflow, e: string, t: string) {
    w.endpointId == e && w.triggerEvent == t
  }

  ghost predicate DistinctIds(list: seq<Workflow>) {
    forall i, j :: 0 <= i < j < |list| ==> list[i].id != list[j].id
  }

  predicate Listed(s: Table, w: Workflow) {
    w.id in s.workflows && s.workflows[w.id] == w
  }

  ghost predicate AgreesAt(s: Table, e: string, t: string) {
    && DistinctIds(ListOf(s.routes, e, t))
    && forall w :: w in ListOf(s.routes, e, t) <==> Listed(s, w) && Routed(w, e, t)
  }

  ghost predicate Agrees(s: Table) {
    && (forall id :: id in s.workflows ==> s.workflows[id].id == id)
    && (forall e, t :: AgreesAt(s, e, t))
  }

  lemma ListAfter(r: Routes, e: string, t: string, list: seq<Workflow>, e': string, t': string)
    ensures ListOf(WithList(r, e, t, list), e', t') == if e == e' && t == t' then list else ListOf(r, e', t')
  {
  }

  lemma CutElements(list: seq<Workflow>, i: nat)
    requires DistinctIds(list) && i < |list|
    ensures DistinctIds(list[..i] + list[i + 1..])
    ensures forall w :: w in list[..i] + list[i + 1..] <==> w in list && w.id != list[i].id
  {
  }

  lemma SplicedElements(list: seq<Workflow>, id: string)
    requires DistinctIds(list)
    ensures DistinctIds(Spliced(list, id))
    ensures forall w :: w in Spliced(list, id) <==> w in list && w.id != id
  {
    var i := IndexOf(list, id);
    hide IndexOf;
    if i < |list| {
      CutElements(list, i);
    }
  }

  /** What one place of the index holds after the previous version has left. */
  lemma UnroutedAt(s: Table, id: string, e: string, t: string)
    requires Agrees(s)
    ensures DistinctIds(ListOf(Unrouted(s, id), e, t))
    ensures forall w :: w in ListOf(Unrouted(s, id), e, t) <==> Listed(s, w) && Routed(w, e, t) && w.id != id
  {
    assert AgreesAt(s, e, t);
    if id in s.workflows {
      var p := s.workflows[id];
      var list := ListOf(s.routes, p.endpointId, p.triggerEvent);
      assert AgreesAt(s, p.endpointId, p.triggerEvent);
      assert Listed(s, p) && p in list;
      SplicedElements(list, id);
      ListAfter(s.routes, p.endpointId, p.triggerEvent, Spliced(list, id), e, t);
    }
  }

  /** Adding a workflow, new or changed in any way, keeps the index in agreement. */
  lemma AddedAgrees(s: Table, w: Workflow)
    requires Agrees(s)
    ensures Agrees(Added(s, w))
  {
    var r, s' := Unrouted(s, w.id), Added(s, w);
    forall e, t
      ensures AgreesAt(s', e, t)
    {
      UnroutedAt(s, w.id, e, t);
      ListAfter(r, w.endpointId, w.triggerEvent, ListOf(r, w.endpointId, w.triggerEvent) + [w], e, t);
    }
  }

  lemma MatchedElements(s: Table, e: string, t: string, w: Workflow)
    requires Agrees(s)
    ensures
      w in Matches(s.routes, e, t) <==>
      Listed(s, w) && w.endpointId == e && (w.triggerEvent == t || w.triggerEvent == "*")
  {
    assert AgreesAt(s, e, t) && AgreesAt(s, e, "*");
  }

  /** Where a found workflow comes from. */
  lemma MatchedAt(s: Table, e: string, t: string, i: nat)
    requires Agrees(s) && i < |Matches(s.routes, e, t)|
    ensures
      var exact, w := ListOf(s.routes, e, t), Matches(s.routes, e, t)[i];
      if i < |exact| then w == exact[i] && w.triggerEvent == t
      else t != "*" && w == ListOf(s.routes, e, "*")[i - |exact|] && w.triggerEvent == "*"
    ensures Listed(s, Matches(s.routes, e, t)[i])
  {
    assert AgreesAt(s, e, t) && AgreesAt(s, e, "*");
    var exact := ListOf(s.routes, e, t);
    if i < |exact| {
      assert exact[i] in exact;
    } else {
      assert ListOf(s.routes, e, "*")[i - |exact|] in ListOf(s.routes, e, "*");
    }
  }

  /**
   * A lookup returns exactly the workflows a plain filter would, each once, those for the event type before the
   * wildcard ones.
   */
  lemma MatchesIsTheFilter(s: Table, e: string, t: string)
    requires Agrees(s)
    ensures
      var found := Matches(s.routes, e, t);
      && DistinctIds(found)
      && (forall w :: w in found <==>
          Listed(s, w) && w.endpointId == e && (w.triggerEvent == t || w.triggerEvent == "*"))
      && (forall i, j :: 0 <= i < j < |found| && found[j].triggerEvent == t ==> found[i].triggerEvent == t)
  {
    var found := Matches(s.routes, e, t);
    assert AgreesAt(s, e, t) && AgreesAt(s, e, "*");
    forall w {
      MatchedElements(s, e, t, w);
    }
    forall i, j | 0 <= i < j < |found|
      ensures found[i].id != found[j].id && (found[j].triggerEvent == t ==> found[i].triggerEvent == t)
    {
      MatchedAt(s, e, t, i);
      MatchedAt(s, e, t, j);
    }
  }
}
