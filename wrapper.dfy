/**
 * `OperateLogMixin.decorator`: the wrapper put around a view's dispatch.
 *
 * The world the wrapper touches is the table behind the view's model
 * (a `Database`) and the audit log (a `Sink`). The view is a function from
 * the request, its URL arguments and the table to the new table and either a
 * response or an exception. `Audit` says what one wrapped call does; `Wrap`
 * does it step by step and records, in a ghost trace, each effect in the
 * order it happens.
 */
module Wrapper {
  import opened Values
  import opened Policy
  import opened Snapshot
  import opened Bodies
  import opened Records

  /** What the view does to the table and what it answers (or raises). */
  datatype ViewResult = ViewResult(rows: seq<Fields>, outcome: Result<Response>)

  /**
   * The class attributes of the wrapped view the wrapper consults, and the
   * view itself. `lookupUrlKwarg` is `""` when the attribute is `None`.
   */
  datatype View = View(
    hasSerializer: bool,      // `serializer_class` is set
    hasQuerySet: bool,        // `queryset` is a `QuerySet`
    lookupField: string,
    lookupUrlKwarg: string,
    handle: (Request, map<string, string>, seq<Fields>) -> ViewResult)

  /** The effects of one wrapped call, in order. */
  datatype Event = ResolveBefore(key: Lookup) | Run | ResolveAfter(key: Lookup) | Emit

  /** The lookup the policy asks for ahead of the view, if any. */
  function BeforeEvents(policy: SnapshotPolicy, key: Lookup): seq<Event> {
    if policy.needsBefore then [ResolveBefore(key)] else []
  }

  /** The lookup the policy asks for behind the view, if any. */
  function AfterEvents(policy: SnapshotPolicy, key: Lookup): seq<Event> {
    if policy.needsAfter then [ResolveAfter(key)] else []
  }

  /** The snapshots and the response the wrapper hands to `deal_arguments`. */
  datatype LogCall = LogCall(resp: Response, before: Option<Fields>, after: Option<Fields>)

  /**
   * One wrapped call: the table after it, what it returns (or raises), what
   * it hands to `deal_arguments` if it gets that far, and its effects.
   */
  datatype AuditRun = AuditRun(rows: seq<Fields>, result: Result<Response>, logged: Option<LogCall>, trace: seq<Event>)

  /** Entity-bound views: a serializer class and a `QuerySet`. */
  predicate EntityBound(view: View) {
    view.hasSerializer && view.hasQuerySet
  }

  /** `{lookup_field: kwargs.get(lookup_url_kwarg or lookup_field)}`. */
  function LookupFor(view: View, kwargs: map<string, string>): Lookup {
    var name := if view.lookupUrlKwarg != "" then view.lookupUrlKwarg else view.lookupField;
    Lookup(view.lookupField, if name in kwargs then JString(kwargs[name]) else JNull)
  }

  /**
   * The lookup compares the view's lookup field with the URL argument named
   * by `lookup_url_kwarg`, or by `lookup_field` when that is unset; the value
   * is `None` exactly when the URL lacks that argument.
   */
  lemma LookupForContract(view: View, kwargs: map<string, string>)
    ensures LookupFor(view, kwargs).field == view.lookupField
    ensures view.lookupUrlKwarg != "" && view.lookupUrlKwarg in kwargs ==>
              LookupFor(view, kwargs).value == JString(kwargs[view.lookupUrlKwarg])
    ensures view.lookupUrlKwarg == "" && view.lookupField in kwargs ==>
              LookupFor(view, kwargs).value == JString(kwargs[view.lookupField])
    ensures LookupFor(view, kwargs).value == JNull <==>
              (if view.lookupUrlKwarg != "" then view.lookupUrlKwarg else view.lookupField) !in kwargs
  {
  }

  /**
   * What one wrapped call does, starting from table `rows`. A view that is
   * not entity-bound runs and is logged with no snapshots. Otherwise the
   * before-snapshot is read if the policy asks for it, the view runs, the
   * after-snapshot is read with the same lookup if the policy asks for it,
   * and the call is logged. An exception (from the view or from a lookup that
   * selects several instances) propagates and nothing is logged.
   */
  function Audit(view: View, request: Request, kwargs: map<string, string>,
                 resource: Resource, rows: seq<Fields>): AuditRun
  {
    if !EntityBound(view) then
      var ran := view.handle(request, kwargs, rows);
      if ran.outcome.Err? then AuditRun(ran.rows, ran.outcome, None, [Run])
      else AuditRun(ran.rows, ran.outcome, Some(LogCall(ran.outcome.value, None, None)), [Run, Emit])
    else
      var key := LookupFor(view, kwargs);
      var policy := PolicyFor(request.verb);
      var before := if policy.needsBefore then GetSerializerData(rows, key, resource) else Ok(None);
      var t1 := BeforeEvents(policy, key);
      if before.Err? then AuditRun(rows, Err(before.error), None, t1)
      else
        var ran := view.handle(request, kwargs, rows);
        if ran.outcome.Err? then AuditRun(ran.rows, ran.outcome, None, t1 + [Run])
        else
          var after := if policy.needsAfter then GetSerializerData(ran.rows, key, resource) else Ok(None);
          var t2 := t1 + [Run] + AfterEvents(policy, key);
          if after.Err? then AuditRun(ran.rows, Err(after.error), None, t2)
          else AuditRun(ran.rows, ran.outcome, Some(LogCall(ran.outcome.value, before.value, after.value)), t2 + [Emit])
  }

  /** The row `deal_arguments` writes for a call that got as far as logging. */
  function RowOf(request: Request, libs: Collaborators, now: string, call: LogCall): LogRow {
    DealArguments(request, ParseBody(request.body, libs.codec), call.resp, call.before, call.after, libs, now)
  }

  /** The table behind the view's model. */
  class Database {
    var rows: seq<Fields>

    constructor (rows: seq<Fields>)
      ensures this.rows == rows
    {
      this.rows := rows;
    }
  }

  /** The audit log: `logger.info` appends one row. */
  class Sink {
    var lines: seq<LogRow>

    constructor ()
      ensures lines == []
    {
      lines := [];
    }

    method Info(row: LogRow)
      modifies this
      ensures lines == old(lines) + [row]
    {
      lines := lines + [row];
    }
  }

  /**
   * The wrapper: leaves the table, the answer and the log as `Audit` says,
   * and its trace is `Audit`'s.
   */
  method Wrap(view: View, request: Request, kwargs: map<string, string>, libs: Collaborators, now: string,
              db: Database, sink: Sink)
    returns (result: Result<Response>, ghost trace: seq<Event>)
    modifies db, sink
    ensures var run := Audit(view, request, kwargs, libs.resource, old(db.rows));
      && result == run.result
      && db.rows == run.rows
      && trace == run.trace
      && sink.lines == old(sink.lines) + (if run.logged.Some? then [RowOf(request, libs, now, run.logged.value)] else [])
  {
    var beforeObject: Option<Fields> := None;
    var afterObject: Option<Fields> := None;
    if !EntityBound(view) {
      var ran := view.handle(request, kwargs, db.rows);
      db.rows := ran.rows;
      trace := [Run];
      if ran.outcome.Err? {
        return ran.outcome, trace;
      }
      sink.Info(RowOf(request, libs, now, LogCall(ran.outcome.value, None, None)));
      trace := trace + [Emit];
      return ran.outcome, trace;
    }

    var key := LookupFor(view, kwargs);
    var policy := PolicyFor(request.verb);
    trace := BeforeEvents(policy, key);
    if policy.needsBefore {
      var found := GetSerializerData(db.rows, key, libs.resource);
      if found.Err? {
        return Err(found.error), trace;
      }
      beforeObject := found.value;
    }
    var ran := view.handle(request, kwargs, db.rows);
    db.rows := ran.rows;
    trace := trace + [Run];
    if ran.outcome.Err? {
      return ran.outcome, trace;
    }
    trace := trace + AfterEvents(policy, key);
    if policy.needsAfter {
      var found := GetSerializerData(db.rows, key, libs.resource);
      if found.Err? {
        return Err(found.error), trace;
      }
      afterObject := found.value;
    }
    sink.Info(RowOf(request, libs, now, LogCall(ran.outcome.value, beforeObject, afterObject)));
    trace := trace + [Emit];
    result := ran.outcome;
  }
}
