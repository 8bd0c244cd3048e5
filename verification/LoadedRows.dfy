/** Which of the rows it loads a snapshot serves (workflows/workflow-loader.ts). */
module LoadedRows {
  import opened Collections
  import opened RoutingIndex
  import opened WorkflowLoader

  predicate HasSlug(row: EndpointRow, slug: string) {
    row.usable && row.endpoint.slug == slug
  }

  /** Row `i` is the last usable one with this slug. */
  ghost predicate LastWithSlug(rows: seq<EndpointRow>, i: int, slug: string) {
    && 0 <= i < |rows| && HasSlug(rows[i], slug)
    && forall j :: i < j < |rows| ==> !HasSlug(rows[j], slug)
  }

  ghost predicate SomeHasSlug(rows: seq<EndpointRow>, slug: string) {
    exists i :: 0 <= i < |rows| && HasSlug(rows[i], slug)
  }

  ghost predicate IsAmong(endpoints: map<string, Endpoint>, id: string) {
    exists slug :: slug in endpoints && endpoints[slug].id == id
  }

  /** A usable row of this workflow, of one of the endpoints `of` if these are given. */
  ghost predicate HasId(row: WorkflowRow, of: Option<map<string, Endpoint>>, id: string) {
    row.usable && row.workflow.id == id && (of.Some? ==> IsAmong(of.value, row.workflow.endpointId))
  }

  ghost predicate LastWithId(rows: seq<WorkflowRow>, of: Option<map<string, Endpoint>>, i: int, id: string) {
    && 0 <= i < |rows| && HasId(rows[i], of, id)
    && forall j :: i < j < |rows| ==> !HasId(rows[j], of, id)
  }

  ghost predicate SomeHasId(rows: seq<WorkflowRow>, of: Option<map<string, Endpoint>>, id: string) {
    exists i :: 0 <= i < |rows| && HasId(rows[i], of, id)
  }

  /** What is served under `slug`, or `id`: the last usable row, and without one what was served before. */
  ghost predicate ServesEndpoint(before: map<string, Endpoint>, rows: seq<EndpointRow>, after: map<string, Endpoint>,
                                 slug: string) {
    && (slug in after <==> slug in before || SomeHasSlug(rows, slug))
    && (forall i :: LastWithSlug(rows, i, slug) ==> slug in after && after[slug] == rows[i].endpoint)
    && (slug in before && !SomeHasSlug(rows, slug) ==> slug in after && after[slug] == before[slug])
  }

  ghost predicate ServesWorkflow(before: map<string, Workflow>, rows: seq<WorkflowRow>,
                                 of: Option<map<string, Endpoint>>,
                                 after: map<string, Workflow>, id: string) {
    && (id in after <==> id in before || SomeHasId(rows, of, id))
    && (forall i :: LastWithId(rows, of, i, id) ==> id in after && after[id] == rows[i].workflow)
    && (id in before && !SomeHasId(rows, of, id) ==> id in after && after[id] == before[id])
  }

  lemma {:induction false} EndpointsAreServed(s: Table, rows: seq<EndpointRow>, slug: string)
    ensures ServesEndpoint(s.endpoints, rows, WithEndpoints(s, rows).endpoints, slug)
  {
    if rows != [] {
      var n := |rows| - 1;
      EndpointsAreServed(s, rows[..n], slug);
      assert SomeHasSlug(rows, slug) <==> SomeHasSlug(rows[..n], slug) || HasSlug(rows[n], slug) by {
        assert forall i :: 0 <= i < n ==> rows[..n][i] == rows[i];
      }
      forall i | LastWithSlug(rows, i, slug)
        ensures i == n || LastWithSlug(rows[..n], i, slug)
      {
        assert forall j :: i <= j < n ==> rows[..n][j] == rows[j];
      }
      assert forall i :: LastWithSlug(rows, i, slug) && i < n ==> !HasSlug(rows[n], slug);
    }
  }

  ghost predicate SameEndpoints(among: Option<set<string>>, of: Option<map<string, Endpoint>>) {
    (among == None <==> of == None) && (of.Some? ==> forall id :: id in among.value <==> IsAmong(of.value, id))
  }

  lemma {:induction false} WorkflowsAreServed(s: Table, rows: seq<WorkflowRow>, among: Option<set<string>>,
                                               of: Option<map<string, Endpoint>>, id: string)
    requires SameEndpoints(among, of)
    ensures ServesWorkflow(s.workflows, rows, of, WithWorkflows(s, rows, among).workflows, id)
  {
    if rows != [] {
      var n := |rows| - 1;
      WorkflowsAreServed(s, rows[..n], among, of, id);
      assert SomeHasId(rows, of, id) <==> SomeHasId(rows[..n], of, id) || HasId(rows[n], of, id) by {
        assert forall i :: 0 <= i < n ==> rows[..n][i] == rows[i];
      }
      forall i | LastWithId(rows, of, i, id)
        ensures i == n || LastWithId(rows[..n], of, i, id)
      {
        assert forall j :: i <= j < n ==> rows[..n][j] == rows[j];
      }
      assert forall i :: LastWithId(rows, of, i, id) && i < n ==> !HasId(rows[n], of, id);
      hide Unrouted, WithList, ListOf;
    }
  }

  /** The workflows that events of type `t` at endpoint `e` are routed to are those served for it. */
  lemma RoutesAreServed(s: Table, e: string, t: string, w: Workflow)
    requires Agrees(s)
    ensures w in Matches(s.routes, e, t) <==>
            w.id in s.workflows && s.workflows[w.id] == w && w.endpointId == e &&
              (w.triggerEvent == t || w.triggerEvent == "*")
  {
    MatchesIsTheFilter(s, e, t);
  }

  /**
   * After a reload a slug is served if and only if a usable row has it, and a workflow if and only if a usable row of
   * one of those endpoints has it, the last row each time; events are routed to exactly those workflows.
   */
  lemma ReloadServesTheRows(endpoints: seq<EndpointRow>, workflows: seq<WorkflowRow>)
    ensures
      var s := Rebuilt(endpoints, workflows);
      && (forall slug :: ServesEndpoint(map[], endpoints, s.endpoints, slug))
      && (forall id :: ServesWorkflow(map[], workflows, Some(s.endpoints), s.workflows, id))
      && (forall e, t, w :: w in Matches(s.routes, e, t) <==>
          && w.id in s.workflows && s.workflows[w.id] == w
          && w.endpointId == e && (w.triggerEvent == t || w.triggerEvent == "*"))
  {
    var s, start := Rebuilt(endpoints, workflows), WithEndpoints(NOTHING, endpoints);
    var among := Some(EndpointIds(start.endpoints));
    EndpointsLeaveRoutes(NOTHING, endpoints);
    WorkflowsLeaveEndpoints(start, workflows, among);
    RebuiltAgrees(endpoints, workflows);
    assert SameEndpoints(among, Some(start.endpoints));
    hide Agrees, Matches, ServesEndpoint, ServesWorkflow, WithWorkflows, WithEndpoints;
    forall slug { EndpointsAreServed(NOTHING, endpoints, slug); }
    forall id { WorkflowsAreServed(start, workflows, among, Some(start.endpoints), id); }
    forall e, t, w { RoutesAreServed(s, e, t, w); }
  }

  lemma {:induction false} WorkflowsLeaveEndpoints(s: Table, rows: seq<WorkflowRow>, among: Option<set<string>>)
    ensures WithWorkflows(s, rows, among).endpoints == s.endpoints
  {
    if rows != [] {
      hide Unrouted, WithList, ListOf;
      WorkflowsLeaveEndpoints(s, rows[..|rows| - 1], among);
    }
  }

  /**
   * An endpoint loaded on demand is served from then on, with the last usable row of each of its workflows; all else
   * stays as it was, and so it does if the endpoint is unknown or unusable.
   */
  lemma FinishServesTheRows(s: Table, loaded: Loaded)
    requires Agrees(s)
    ensures
      var s' := EndpointFinished(s, loaded);
      if loaded == None || !loaded.value.0.usable then s' == s
      else
        var endpoint := loaded.value.0.endpoint;
        && s'.endpoints == s.endpoints[endpoint.slug := endpoint]
        && (forall id :: ServesWorkflow(s.workflows, loaded.value.1, None, s'.workflows, id))
        && (forall e, t, w :: w in Matches(s'.routes, e, t) <==>
            && w.id in s'.workflows && s'.workflows[w.id] == w
            && w.endpointId == e && (w.triggerEvent == t || w.triggerEvent == "*"))
  {
    if Usable(loaded) {
      var endpoint, s' := loaded.value.0.endpoint, EndpointFinished(s, loaded);
      var start := s.(endpoints := s.endpoints[endpoint.slug := endpoint]);
      WorkflowsLeaveEndpoints(start, loaded.value.1, None);
      EndpointFinishedAgrees(s, loaded);
      hide Agrees, Matches, ServesWorkflow, WithWorkflows;
      forall id { WorkflowsAreServed(start, loaded.value.1, None, None, id); }
      forall e, t, w { RoutesAreServed(s', e, t, w); }
    }
  }

  /**
   * A workflow loaded on demand is served if and only if it is active and usable; one that is not usable is an error.
   */
  lemma FinishServesTheWorkflow(s: Table, row: Option<WorkflowRow>)
    requires Agrees(s)
    ensures
      var (s', r) := WorkflowFinished(s, row);
      if row.Some? && row.value.active && row.value.usable then
        var loaded := row.value.workflow;
        && r == Ok(Some(loaded)) && s'.endpoints == s.endpoints && s'.workflows == s.workflows[loaded.id := loaded]
        && forall e, t, w :: w in Matches(s'.routes, e, t) <==>
             && w.id in s'.workflows && s'.workflows[w.id] == w
             && w.endpointId == e && (w.triggerEvent == t || w.triggerEvent == "*")
      else s' == s && r == if row.Some? && row.value.active then Err(()) else Ok(None)
  {
    var s' := WorkflowFinished(s, row).0;
    WorkflowFinishedAgrees(s, row);
    hide Agrees, Matches, Unrouted, WithList, ListOf;
    forall e, t, w { RoutesAreServed(s', e, t, w); }
  }

  // ---- lookups that miss ----

  /**
   * A slug that was not found is not asked for again before its deadline, and is from then on, as far as the budget
   * goes; other slugs are remembered as before, unless there were more than 10,000 of them.
   */
  lemma MissIsRemembered(s: Table, negative: map<string, real>, slug: string, until: real, now: real, hasBudget: bool,
                         other: string)
    requires slug !in s.endpoints
    ensures
      var after := Remembered(negative, slug, until);
      && (EndpointChecked(s, after, slug, now, hasBudget) == if now < until || !hasBudget then Answered(None)
                                                             else MustLoad)
      && (other != slug ==> (other in after <==> other in negative && |negative| <= 10000))
      && (other != slug && other in after ==> after[other] == negative[other])
      && (|negative| <= 10001 ==> |after| <= 10001)
  {
    var kept: map<string, real> := if |negative| > 10000 then map[] else negative;
    assert Remembered(negative, slug, until).Keys == kept.Keys + {slug};
  }

  /** A slug that is served is answered at once, and one that is neither served nor remembered costs budget. */
  lemma LookupIsAnswered(s: Table, negative: map<string, real>, slug: string, now: real, hasBudget: bool)
    ensures
      var r := EndpointChecked(s, negative, slug, now, hasBudget);
      && (slug in s.endpoints ==> r == Answered(Some(s.endpoints[slug])))
      && (slug !in s.endpoints && slug !in negative ==> r == if hasBudget then MustLoad else Answered(None))
  {
  }
}
