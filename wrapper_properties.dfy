/**
 * What every wrapped call does, proved of `Audit` (and so of `Wrap`, whose
 * postcondition is `Audit`): the order of its effects, that the view's
 * answer is returned unchanged, when a row is logged and what it holds.
 */
module WrapperProperties {
  import opened Values
  import opened Policy
  import opened Snapshot
  import opened Bodies
  import opened Records
  import opened Wrapper

  /**
   * The order the wrapper promises for an entity-bound call that raised
   * nothing: a before-lookup exactly when the policy asks for one, and only
   * ahead of the view; the view once; an after-lookup exactly when the policy
   * asks for one, and only behind the view; both lookups with the same key;
   * one emission, last.
   */
  ghost predicate Sequenced(t: seq<Event>, policy: SnapshotPolicy, key: Lookup) {
    && |t| > 0 && t[|t| - 1] == Emit
    && multiset(t)[Emit] == 1
    && multiset(t)[Run] == 1
    && multiset(t)[ResolveBefore(key)] == (if policy.needsBefore then 1 else 0)
    && multiset(t)[ResolveAfter(key)] == (if policy.needsAfter then 1 else 0)
    && (forall i :: 0 <= i < |t| && (t[i].ResolveBefore? || t[i].ResolveAfter?) ==> t[i].key == key)
    && (forall i, j :: 0 <= i < |t| && 0 <= j < |t| && t[i].ResolveBefore? && t[j] == Run ==> i < j)
    && (forall i, j :: 0 <= i < |t| && 0 <= j < |t| && t[i] == Run && t[j].ResolveAfter? ==> i < j)
  }

  /** The effects the wrapper plans for an entity-bound call that raises nothing. */
  function Planned(policy: SnapshotPolicy, key: Lookup): seq<Event> {
    BeforeEvents(policy, key) + [Run] + AfterEvents(policy, key) + [Emit]
  }

  /** The planned effects hold each lookup the policy asks for, the view and the emission once each. */
  lemma PlannedCounts(policy: SnapshotPolicy, key: Lookup)
    ensures var t := Planned(policy, key);
      && multiset(t)[Emit] == 1
      && multiset(t)[Run] == 1
      && multiset(t)[ResolveBefore(key)] == (if policy.needsBefore then 1 else 0)
      && multiset(t)[ResolveAfter(key)] == (if policy.needsAfter then 1 else 0)
  {
    var b, a := BeforeEvents(policy, key), AfterEvents(policy, key);
    assert multiset(Planned(policy, key)) == multiset(b) + multiset{Run} + multiset(a) + multiset{Emit};
  }

  /** The planned effects put the before-lookup ahead of the view and the after-lookup behind it. */
  lemma PlannedOrdered(policy: SnapshotPolicy, key: Lookup)
    ensures var t := Planned(policy, key);
      && (forall i :: 0 <= i < |t| && (t[i].ResolveBefore? || t[i].ResolveAfter?) ==> t[i].key == key)
      && (forall i, j :: 0 <= i < |t| && 0 <= j < |t| && t[i].ResolveBefore? && t[j] == Run ==> i < j)
      && (forall i, j :: 0 <= i < |t| && 0 <= j < |t| && t[i] == Run && t[j].ResolveAfter? ==> i < j)
  {
    var b := BeforeEvents(policy, key);
    var t := Planned(policy, key);
    forall i, j | 0 <= i < |t| && 0 <= j < |t| && t[i].ResolveBefore? && t[j] == Run
      ensures i < j
    {
      assert i < |b| && j == |b|;
    }
    forall i, j | 0 <= i < |t| && 0 <= j < |t| && t[i] == Run && t[j].ResolveAfter?
      ensures i < j
    {
      assert i == |b| && j == |b| + 1;
    }
  }

  /** The planned effects are `Sequenced`. */
  lemma PlannedSequenced(policy: SnapshotPolicy, key: Lookup)
    ensures Sequenced(Planned(policy, key), policy, key)
  {
    PlannedCounts(policy, key);
    PlannedOrdered(policy, key);
  }

  /** The effects of a successful entity-bound call are `Sequenced`. */
  lemma EntityCallSequenced(view: View, request: Request, kwargs: map<string, string>,
                            resource: Resource, rows: seq<Fields>)
    requires EntityBound(view)
    requires Audit(view, request, kwargs, resource, rows).result.Ok?
    ensures Sequenced(Audit(view, request, kwargs, resource, rows).trace, PolicyFor(request.verb), LookupFor(view, kwargs))
  {
    var key := LookupFor(view, kwargs);
    var policy := PolicyFor(request.verb);
    assert Audit(view, request, kwargs, resource, rows).trace == Planned(policy, key);
    PlannedSequenced(policy, key);
  }

  /**
   * Every prefix the wrapper can stop at: the view appears at most once, and
   * the emission only in the whole plan, once and last.
   */
  lemma PrefixCounts(policy: SnapshotPolicy, key: Lookup, t: seq<Event>)
    requires var b, a := BeforeEvents(policy, key), AfterEvents(policy, key);
      t in {b, b + [Run], b + [Run] + a, b + [Run] + a + [Emit], [Run], [Run] + [Emit]}
    ensures multiset(t)[Run] <= 1
    ensures multiset(t)[Emit] == (if |t| > 0 && t[|t| - 1] == Emit then 1 else 0)
  {
    var b, a := BeforeEvents(policy, key), AfterEvents(policy, key);
    assert multiset(b)[Run] == 0 && multiset(b)[Emit] == 0;
    assert multiset(a)[Run] == 0 && multiset(a)[Emit] == 0;
  }

  /**
   * Every call, whatever it raises: the view runs at most once; a row is
   * logged exactly when the call returns normally, and then its emission is
   * the last effect; an exception is passed on with nothing logged.
   */
  lemma LoggedExactlyWhenReturned(view: View, request: Request, kwargs: map<string, string>,
                                  resource: Resource, rows: seq<Fields>)
    ensures var run := Audit(view, request, kwargs, resource, rows);
      && multiset(run.trace)[Run] <= 1
      && (run.logged.Some? <==> run.result.Ok?)
      && multiset(run.trace)[Emit] == (if run.result.Ok? then 1 else 0)
      && (run.result.Ok? ==> run.trace[|run.trace| - 1] == Emit)
  {
    var run := Audit(view, request, kwargs, resource, rows);
    var key := LookupFor(view, kwargs);
    var policy := PolicyFor(request.verb);
    var b, a := BeforeEvents(policy, key), AfterEvents(policy, key);
    if EntityBound(view) {
      var before := if policy.needsBefore then GetSerializerData(rows, key, resource) else Ok(None);
      var ran := view.handle(request, kwargs, rows);
      var after := if policy.needsAfter then GetSerializerData(ran.rows, key, resource) else Ok(None);
      if before.Err? {
        assert run.trace == b;
      } else if ran.outcome.Err? {
        assert run.trace == b + [Run];
      } else if after.Err? {
        assert run.trace == b + [Run] + a;
      } else {
        assert run.trace == b + [Run] + a + [Emit];
      }
    } else if run.result.Err? {
      assert run.trace == [Run];
    } else {
      assert run.trace == [Run] + [Emit];
    }
    PrefixCounts(policy, key, run.trace);
  }

  /**
   * Where each outcome comes from. A before-lookup that raises does so ahead
   * of the view: the view does not run, the table is untouched and the
   * lookup's exception is the answer. Otherwise, a view that raises has its
   * own exception passed on unchanged, with the table as it left it. An
   * after-lookup that raises does so on the table the view left, and its
   * exception replaces the view's response. A call whose lookups all succeed
   * gives back exactly what the view answered. Only that last case logs.
   */
  lemma ResponseUnchanged(view: View, request: Request, kwargs: map<string, string>,
                          resource: Resource, rows: seq<Fields>)
    ensures var run := Audit(view, request, kwargs, resource, rows);
      var ran := view.handle(request, kwargs, rows);
      var key := LookupFor(view, kwargs);
      var policy := PolicyFor(request.verb);
      var before := if EntityBound(view) && policy.needsBefore then GetSerializerData(rows, key, resource) else Ok(None);
      var after := if EntityBound(view) && policy.needsAfter then GetSerializerData(ran.rows, key, resource) else Ok(None);
      && (before.Err? ==>
            run.result == Err(before.error) && run.rows == rows && Run !in run.trace && run.logged.None?)
      && (before.Ok? && ran.outcome.Err? ==>
            run.result == ran.outcome && run.rows == ran.rows && run.logged.None?)
      && (before.Ok? && ran.outcome.Ok? && after.Err? ==>
            run.result == Err(after.error) && run.rows == ran.rows && run.logged.None?)
      && (before.Ok? && ran.outcome.Ok? && after.Ok? ==>
            run.result == ran.outcome && run.rows == ran.rows && run.logged.Some?)
  {
    var key := LookupFor(view, kwargs);
    var policy := PolicyFor(request.verb);
    assert Run !in BeforeEvents(policy, key);
  }

  /**
   * The degraded path: a view without a serializer class or a `QuerySet`
   * looks nothing up, runs once, and when it returns logs one row whose
   * before, after and diff are `null`, with `{}` as the body of an empty
   * request.
   */
  lemma DegradedPathLogsNoSnapshots(view: View, request: Request, kwargs: map<string, string>,
                                    libs: Collaborators, now: string, rows: seq<Fields>)
    requires !EntityBound(view)
    ensures var run := Audit(view, request, kwargs, libs.resource, rows);
      && run.trace == (if run.result.Ok? then [Run] + [Emit] else [Run])
      && (forall i :: 0 <= i < |run.trace| ==> !run.trace[i].ResolveBefore? && !run.trace[i].ResolveAfter?)
      && run.result == view.handle(request, kwargs, rows).outcome
      && (run.logged.Some? ==>
            var row := RowOf(request, libs, now, run.logged.value);
            && row.before == JNull && row.after == JNull && row.diff == JNull
            && row.version == Version
            && (request.body == [] ==> row.body == EmptyObject))
  {
    var run := Audit(view, request, kwargs, libs.resource, rows);
    if run.logged.Some? {
      var c := run.logged.value;
      DealArgumentsRecord(request, ParseBody(request.body, libs.codec), c.resp, c.before, c.after, libs, now);
    }
  }

  /**
   * What an entity-bound call that returned hands to `deal_arguments`: the
   * view's response; the before-snapshot read from the table as it was
   * before the view ran (and only when the policy asks for it); the
   * after-snapshot read from the table as the view left it (likewise); both
   * with the same lookup.
   */
  lemma SnapshotsBracketTheView(view: View, request: Request, kwargs: map<string, string>,
                                resource: Resource, rows: seq<Fields>)
    requires EntityBound(view)
    requires Audit(view, request, kwargs, resource, rows).logged.Some?
    ensures var call := Audit(view, request, kwargs, resource, rows).logged.value;
      var key := LookupFor(view, kwargs);
      var policy := PolicyFor(request.verb);
      var ran := view.handle(request, kwargs, rows);
      && ran.outcome == Ok(call.resp)
      && call.before == (if policy.needsBefore then GetSerializerData(rows, key, resource).value else None)
      && call.after == (if policy.needsAfter then GetSerializerData(ran.rows, key, resource).value else None)
  {
  }

  /**
   * A read (or any action outside the table) is logged with no snapshots
   * and no diff, whatever the view.
   */
  lemma ReadLogsNoSnapshots(view: View, request: Request, kwargs: map<string, string>,
                            libs: Collaborators, now: string, rows: seq<Fields>)
    requires Lower(request.verb) !in {"post", "put", "patch", "delete"}
    requires Audit(view, request, kwargs, libs.resource, rows).logged.Some?
    ensures var row := RowOf(request, libs, now, Audit(view, request, kwargs, libs.resource, rows).logged.value);
      row.before == JNull && row.after == JNull && row.diff == JNull
  {
    var c := Audit(view, request, kwargs, libs.resource, rows).logged.value;
    PolicyForContract(request.verb);
    if EntityBound(view) {
      SnapshotsBracketTheView(view, request, kwargs, libs.resource, rows);
    }
    DealArgumentsRecord(request, ParseBody(request.body, libs.codec), c.resp, c.before, c.after, libs, now);
  }

  /**
   * A delete of an instance the lookup finds is logged with that instance as
   * the before-snapshot and no after-snapshot or diff.
   */
  lemma DeleteLogsBeforeOnly(view: View, request: Request, kwargs: map<string, string>,
                             libs: Collaborators, now: string, rows: seq<Fields>, i: nat)
    requires EntityBound(view) && Lower(request.verb) == "delete"
    requires libs.resource.refuses(LookupFor(view, kwargs)).None?
    requires i < |rows| && UniqueMatch(rows, libs.resource, LookupFor(view, kwargs), i)
    requires Audit(view, request, kwargs, libs.resource, rows).logged.Some?
    ensures var row := RowOf(request, libs, now, Audit(view, request, kwargs, libs.resource, rows).logged.value);
      row.before == JObject(libs.resource.serialize(rows[i])) && row.after == JNull && row.diff == JNull
  {
    var c := Audit(view, request, kwargs, libs.resource, rows).logged.value;
    PolicyForContract(request.verb);
    GetSerializerDataContract(rows, LookupFor(view, kwargs), libs.resource);
    SnapshotsBracketTheView(view, request, kwargs, libs.resource, rows);
    DealArgumentsRecord(request, ParseBody(request.body, libs.codec), c.resp, c.before, c.after, libs, now);
  }

  /**
   * A create whose new instance the lookup finds afterwards is logged with
   * no before-snapshot and with that instance as both after-snapshot and
   * diff, when its serialization is not empty.
   */
  lemma CreateLogsAfterAsDiff(view: View, request: Request, kwargs: map<string, string>,
                              libs: Collaborators, now: string, rows: seq<Fields>, i: nat)
    requires EntityBound(view) && Lower(request.verb) == "post"
    requires libs.resource.refuses(LookupFor(view, kwargs)).None?
    requires var later := view.handle(request, kwargs, rows).rows;
      i < |later| && UniqueMatch(later, libs.resource, LookupFor(view, kwargs), i) && libs.resource.serialize(later[i]) != map[]
    requires Audit(view, request, kwargs, libs.resource, rows).logged.Some?
    ensures var row := RowOf(request, libs, now, Audit(view, request, kwargs, libs.resource, rows).logged.value);
      var created := libs.resource.serialize(view.handle(request, kwargs, rows).rows[i]);
      row.before == JNull && row.after == JObject(created) && row.diff == JObject(created)
  {
    var c := Audit(view, request, kwargs, libs.resource, rows).logged.value;
    PolicyForContract(request.verb);
    GetSerializerDataContract(view.handle(request, kwargs, rows).rows, LookupFor(view, kwargs), libs.resource);
    SnapshotsBracketTheView(view, request, kwargs, libs.resource, rows);
    DealArgumentsRecord(request, ParseBody(request.body, libs.codec), c.resp, c.before, c.after, libs, now);
  }

  /**
   * A create sent, as usual, to the list URL carries no lookup argument, so
   * the lookup is `{lookup_field: None}`, which the ORM reads as `IS NULL`.
   * When no stored instance has a null lookup field (a primary key never
   * is), the create is logged with no snapshots and no diff.
   */
  lemma CreateOnListUrlLogsNoAfter(view: View, request: Request, kwargs: map<string, string>,
                                   libs: Collaborators, now: string, rows: seq<Fields>)
    requires EntityBound(view) && Lower(request.verb) == "post"
    requires (if view.lookupUrlKwarg != "" then view.lookupUrlKwarg else view.lookupField) !in kwargs
    requires libs.resource.refuses(LookupFor(view, kwargs)).None?
    requires var later := view.handle(request, kwargs, rows).rows;
      forall i :: 0 <= i < |later| ==> !libs.resource.matches(later[i], Lookup(view.lookupField, JNull))
    requires Audit(view, request, kwargs, libs.resource, rows).logged.Some?
    ensures var row := RowOf(request, libs, now, Audit(view, request, kwargs, libs.resource, rows).logged.value);
      row.before == JNull && row.after == JNull && row.diff == JNull
  {
    var c := Audit(view, request, kwargs, libs.resource, rows).logged.value;
    LookupForContract(view, kwargs);
    PolicyForContract(request.verb);
    GetSerializerDataContract(view.handle(request, kwargs, rows).rows, LookupFor(view, kwargs), libs.resource);
    SnapshotsBracketTheView(view, request, kwargs, libs.resource, rows);
    DealArgumentsRecord(request, ParseBody(request.body, libs.codec), c.resp, c.before, c.after, libs, now);
  }

  /**
   * A put or patch of an instance the lookup finds both before and after the
   * view is logged with both serializations and, when both are non-empty,
   * with DeepDiff's account of the change, the timestamp paths skipped.
   */
  lemma UpdateLogsBothAndDiff(view: View, request: Request, kwargs: map<string, string>,
                              libs: Collaborators, now: string, rows: seq<Fields>, i: nat, j: nat)
    requires EntityBound(view) && Lower(request.verb) in {"put", "patch"}
    requires libs.resource.refuses(LookupFor(view, kwargs)).None?
    requires i < |rows| && UniqueMatch(rows, libs.resource, LookupFor(view, kwargs), i)
    requires var later := view.handle(request, kwargs, rows).rows;
      j < |later| && UniqueMatch(later, libs.resource, LookupFor(view, kwargs), j)
    requires libs.resource.serialize(rows[i]) != map[]
    requires libs.resource.serialize(view.handle(request, kwargs, rows).rows[j]) != map[]
    requires Audit(view, request, kwargs, libs.resource, rows).logged.Some?
    ensures var row := RowOf(request, libs, now, Audit(view, request, kwargs, libs.resource, rows).logged.value);
      var prior := libs.resource.serialize(rows[i]);
      var updated := libs.resource.serialize(view.handle(request, kwargs, rows).rows[j]);
      && row.before == JObject(prior)
      && row.after == JObject(updated)
      && row.diff == libs.deepDiff(prior, updated, ExcludedPaths)
  {
    var c := Audit(view, request, kwargs, libs.resource, rows).logged.value;
    PolicyForContract(request.verb);
    GetSerializerDataContract(rows, LookupFor(view, kwargs), libs.resource);
    GetSerializerDataContract(view.handle(request, kwargs, rows).rows, LookupFor(view, kwargs), libs.resource);
    SnapshotsBracketTheView(view, request, kwargs, libs.resource, rows);
    DealArgumentsRecord(request, ParseBody(request.body, libs.codec), c.resp, c.before, c.after, libs, now);
  }
}
