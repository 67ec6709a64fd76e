/** What a whole batch of copytool events leaves in the operation table, whether or not
    its events are good: one new row for each start, in order, and no row changes whose
    operation it is. */
module CopytoolRows {
  import opened Basics
  import opened Copytool

  /** A start that names no operation. */
  predicate Begins(e: Event) {
    e.OpEvent? && e.state.Start? && e.activeOp.None?
  }

  function Begun(events: seq<Event>): nat {
    if events == [] then 0 else Begun(events[..|events| - 1]) + if Begins(events[|events| - 1]) then 1 else 0
  }

  ghost predicate OfRow(w: World, op: Op) {
    op.id in w.ops && SameOperation(op, w.ops[op.id])
  }

  /** Rows carry their number, and the handler's objects are of rows. */
  ghost predicate Matched(w: World) {
    && (forall id | id in w.ops :: w.ops[id].id == id && id < w.nextId)
    && (forall fid | fid in w.active :: OfRow(w, w.active[fid]))
  }

  /** No row goes, and none becomes another operation's. */
  ghost predicate Preserved(w: World, t: World) {
    t.self == w.self && forall id | id in w.ops :: id in t.ops && SameOperation(t.ops[id], w.ops[id])
  }

  lemma RegisteredMatches(w: World, uuid: string, now: nat)
    requires Matched(w)
    ensures var t := Registered(w, uuid, now);
            Matched(t) && Preserved(w, t) && t.ops.Keys == w.ops.Keys && t.nextId == w.nextId
  {
  }

  lemma SavedMatches(w: World, op: Op)
    requires Matched(w) && OfRow(w, op)
    ensures var t := Saved(w, op); Matched(t) && Preserved(w, t) && t.ops.Keys == w.ops.Keys && OfRow(t, op)
  {
    var t := Saved(w, op);
    forall fid | fid in t.active ensures OfRow(t, t.active[fid]) {
      assert OfRow(w, w.active[fid]);
    }
  }

  lemma ProgressMatches(w: World, e: Event)
    requires e.OpEvent? && Matched(w) && e.dataFid in w.active
    ensures var t := Progress(w, e);
            Matched(t) && Preserved(w, t) && t.ops.Keys == w.ops.Keys && t.nextId == w.nextId
  {
    var op := w.active[e.dataFid];
    assert OfRow(w, op);
    match e.state {
      case Finish => SavedMatches(w, Ended(op, e.time, e.state, e.error));
      case Error => SavedMatches(w, Ended(op, e.time, e.state, e.error));
      case RunningEvent => SavedMatches(w, Updated(op, e.time, e.current, e.total));
      case _ =>
    }
  }

  lemma OpMatches(w: World, e: Event)
    requires e.OpEvent? && Matched(w)
    ensures var t := HandleOp(w, e);
            && Matched(t) && Preserved(w, t)
            && (if Begins(e)
                then t.ops.Keys == w.ops.Keys + {w.nextId} && t.nextId == w.nextId + 1 &&
                     StartsAs(t.ops[w.nextId], w.nextId, w.self, e)
                else t.ops.Keys == w.ops.Keys && t.nextId == w.nextId)
  {
    if e.activeOp.Some? {
      if e.activeOp.value in w.ops {
        ProgressMatches(Reload(w, e), e);
      }
    } else if !e.state.Start? && e.sourceFid in w.active {
      ProgressMatches(Rekey(w, e), e);
    }
  }

  lemma EventMatches(w: World, e: Event, wasStarted: bool)
    requires Matched(w)
    ensures var t := Handle(w, e, wasStarted);
            && Matched(t) && Preserved(w, t)
            && (if Begins(e)
                then t.ops.Keys == w.ops.Keys + {w.nextId} && t.nextId == w.nextId + 1 &&
                     StartsAs(t.ops[w.nextId], w.nextId, w.self, e)
                else t.ops.Keys == w.ops.Keys && t.nextId == w.nextId)
  {
    match e {
      case Unregister =>
      case Log =>
      case Register(uuid, now) => RegisteredMatches(w, uuid, now);
      case OpEvent(_, _, _, _, _, _, _, _, _, _, _) =>
        if !wasStarted {
          RegisteredMatches(w, UNKNOWN_UUID, e.now);
        }
        OpMatches(Preregistered(w, e, wasStarted), e);
    }
  }

  /** The batch adds one row for each start, numbered in order, and keeps the rest. */
  lemma {:induction false} BatchAddsStarts(w: World, events: seq<Event>, wasStarted: bool)
    requires Matched(w)
    ensures var t := HandleAll(w, events, wasStarted);
            && Matched(t) && Preserved(w, t) && t.nextId == w.nextId + Begun(events)
            && forall id :: id in t.ops <==> id in w.ops || w.nextId <= id < w.nextId + Begun(events)
  {
    if events != [] {
      BatchAddsStarts(w, events[..|events| - 1], wasStarted);
      EventMatches(HandleAll(w, events[..|events| - 1], wasStarted), events[|events| - 1], wasStarted);
    }
  }

  /** The row of a start has, whatever came after in the batch, the number of its turn and
      the type, path, FID and time of that event. */
  lemma {:induction false} StartedRowAgrees(w: World, events: seq<Event>, k: nat, wasStarted: bool)
    requires Matched(w) && k < |events| && Begins(events[k])
    ensures Agrees(HandleAll(w, events, wasStarted), w.nextId + Begun(events[..k]), w.self, events[k])
  {
    var front, last := events[..|events| - 1], events[|events| - 1];
    var v := HandleAll(w, front, wasStarted);
    BatchAddsStarts(w, front, wasStarted);
    if k < |events| - 1 {
      assert front[..k] == events[..k];
      StartedRowAgrees(w, front, k, wasStarted);
      StillAgrees(v, last, wasStarted, w.nextId + Begun(events[..k]), w.self, events[k]);
    } else {
      JustStartedAgrees(v, last, wasStarted);
    }
  }

  ghost predicate Agrees(w: World, id: nat, copytool: nat, e: Event)
    requires e.OpEvent?
  {
    && id in w.ops && w.ops[id].id == id && w.ops[id].copytool == copytool && w.ops[id].typ == e.typ
    && w.ops[id].path == e.path && w.ops[id].fid == e.dataFid && w.ops[id].startedAt == e.time
  }

  lemma StillAgrees(w: World, last: Event, wasStarted: bool, id: nat, copytool: nat, e: Event)
    requires e.OpEvent? && Matched(w) && Agrees(w, id, copytool, e)
    ensures Agrees(Handle(w, last, wasStarted), id, copytool, e)
  {
    EventMatches(w, last, wasStarted);
  }

  lemma JustStartedAgrees(w: World, e: Event, wasStarted: bool)
    requires Matched(w) && Begins(e)
    ensures Agrees(Handle(w, e, wasStarted), w.nextId, w.self, e)
  {
    EventMatches(w, e, wasStarted);
  }

  /** Every row the batch added is that of one of its starts. */
  lemma {:induction false} AddedRowHasAStart(w: World, events: seq<Event>, id: nat, wasStarted: bool) returns (k: nat)
    requires Matched(w) && id in HandleAll(w, events, wasStarted).ops && id !in w.ops
    ensures k < |events| && Begins(events[k]) && id == w.nextId + Begun(events[..k])
  {
    BatchAddsStarts(w, events, wasStarted);
    var front := events[..|events| - 1];
    BatchAddsStarts(w, front, wasStarted);
    if id in HandleAll(w, front, wasStarted).ops {
      k := AddedRowHasAStart(w, front, id, wasStarted);
      assert front[..k] == events[..k];
    } else {
      k := |events| - 1;
    }
  }

  // ---- Registration ----

  /** The identifier a batch leaves registered: that of its last registration, unless the
      copytool was unregistered since.  An operation event registers an unknown one if the
      copytool was not started when the batch came. */
  function LastRegistration(events: seq<Event>, was: (Option<string>, bool), wasStarted: bool): (Option<string>, bool) {
    if events == [] then was
    else
      match events[|events| - 1]
      case Unregister => (None, false)
      case Register(uuid, _) => (Some(uuid), true)
      case Log => LastRegistration(events[..|events| - 1], was, wasStarted)
      case OpEvent(_, _, _, _, _, _, _, _, _, _, _) =>
        if wasStarted then LastRegistration(events[..|events| - 1], was, wasStarted)
        else (Some("00000000-0000-0000-0000-000000000000"), true)
  }

  lemma EventRegisters(w: World, e: Event, wasStarted: bool)
    ensures var t := Handle(w, e, wasStarted);
            (t.uuid, t.registered) ==
            match e
            case Unregister => (None, false)
            case Register(uuid, _) => (Some(uuid), true)
            case Log => (w.uuid, w.registered)
            case OpEvent(_, _, _, _, _, _, _, _, _, _, _) =>
              if wasStarted then (w.uuid, w.registered) else (Some(UNKNOWN_UUID), true)
  {
  }

  lemma {:induction false} RegistrationFollowsEvents(w: World, events: seq<Event>, wasStarted: bool)
    ensures var t := HandleAll(w, events, wasStarted);
            (t.uuid, t.registered) == LastRegistration(events, (w.uuid, w.registered), wasStarted)
  {
    if events != [] {
      RegistrationFollowsEvents(w, events[..|events| - 1], wasStarted);
      EventRegisters(HandleAll(w, events[..|events| - 1], wasStarted), events[|events| - 1], wasStarted);
    }
  }
}
