/** A batch of copytool events updates operation rows.  The handler keeps, by file
    identifier, the operation objects it has loaded; saving one writes its whole row. */
module Copytool {
  import opened Basics

  const UNKNOWN_UUID := "00000000-0000-0000-0000-000000000000"

  datatype OpState = Unknown | Started | Running | Finished | Errored
  datatype OpType = Archive | Restore | Remove

  datatype Op = Op(id: nat, copytool: nat, typ: OpType, fid: string, path: string, state: OpState, startedAt: nat,
                   updatedAt: Option<nat>, finishedAt: Option<nat>, processed: Option<nat>, total: Option<nat>,
                   info: Option<string>)

  datatype EventState = Start | RunningEvent | Finish | Error | OtherState

  datatype Event =
    | Unregister
    | Register(uuid: string, now: nat)
    | Log
    | OpEvent(typ: OpType, state: EventState, time: nat, now: nat, dataFid: string, sourceFid: string, path: string,
              activeOp: Option<nat>, current: nat, total: nat, error: Option<string>)

  /** The tables, this copytool's registration, the handler's objects by FID, and how
      often each operation was ended. */
  datatype World = World(ops: map<nat, Op>, nextId: nat, self: nat, uuid: Option<string>, registered: bool,
                         active: map<string, Op>, ended: multiset<nat>)

  predicate Done(op: Op) {
    op.state.Finished? || op.state.Errored?
  }

  // ---- Operations on rows ----

  /** CopytoolOperation.update */
  function Updated(op: Op, time: nat, current: nat, total: nat): Op {
    op.(updatedAt := Some(time), state := Running, total := Some(total), processed := Some(current))
  }

  /** CopytoolOperation.finish with a timestamp */
  function Ended(op: Op, time: nat, state: EventState, error: Option<string>): Op {
    if state.Finish? then op.(finishedAt := Some(time), state := Finished)
    else op.(finishedAt := Some(time), state := Errored, info := error)
  }

  /** CopytoolOperation.finish without arguments */
  function CancelledOp(op: Op, now: nat): Op {
    op.(finishedAt := Some(now), state := Errored)
  }

  predicate IsCurrent(w: World, id: nat) {
    id in w.ops && w.ops[id].copytool == w.self && !Done(w.ops[id])
  }

  function CurrentOps(w: World): set<nat> {
    set id | id in w.ops && IsCurrent(w, id)
  }

  /** Copytool.cancel_current_operations */
  function CancelCurrent(w: World, now: nat): World {
    w.(ops := map id | id in w.ops :: if IsCurrent(w, id) then CancelledOp(w.ops[id], now) else w.ops[id],
       ended := w.ended + multiset(CurrentOps(w)))
  }

  /** Copytool.register: a different identifier means a new running instance. */
  function Registered(w: World, uuid: string, now: nat): World {
    (if Disrupts(w, uuid) then CancelCurrent(w, now) else w).(uuid := Some(uuid), registered := true)
  }

  function Unregistered(w: World): World {
    w.(uuid := None, registered := false)
  }

  function Created(w: World, e: Event): World
    requires e.OpEvent?
  {
    var op := Op(w.nextId, w.self, e.typ, e.dataFid, e.path, Started, e.time, None, None, None, None, None);
    w.(ops := w.ops[w.nextId := op], nextId := w.nextId + 1, active := w.active[e.dataFid := op])
  }

  /** The state of the event applied to the object under its data FID. */
  function Progress(w: World, e: Event): World
    requires e.OpEvent? && e.dataFid in w.active
  {
    var op := w.active[e.dataFid];
    match e.state
    case Finish => SavedAsEnded(w, e.dataFid, Ended(op, e.time, e.state, e.error))
    case Error => SavedAsEnded(w, e.dataFid, Ended(op, e.time, e.state, e.error))
    case RunningEvent =>
      var updated := Updated(op, e.time, e.current, e.total);
      Saved(w, updated).(active := w.active[e.dataFid := updated])
    case _ => w
  }

  /** An ended operation is saved and no longer tracked. */
  function SavedAsEnded(w: World, fid: string, op: Op): World {
    Saved(w, op).(active := w.active - {fid}, ended := w.ended + multiset{op.id})
  }

  function Saved(w: World, op: Op): World {
    w.(ops := w.ops[op.id := op])
  }

  /** The handler registers the copytool before an operation event unless it found it
      started when the request came in. */
  function Preregistered(w: World, e: Event, wasStarted: bool): World
    requires e.OpEvent?
  {
    if wasStarted then w else Registered(w, UNKNOWN_UUID, e.now)
  }

  function HandleOp(w: World, e: Event): World
    requires e.OpEvent?
  {
    if e.activeOp.Some? then
      if e.activeOp.value in w.ops
      then Progress(w.(active := w.active[e.dataFid := w.ops[e.activeOp.value]]), e)
      else w
    else if e.state.Start? then Created(w, e)
    else if e.sourceFid in w.active then
      Progress(w.(active := (w.active - {e.sourceFid})[e.dataFid := w.active[e.sourceFid]]), e)
    else w
  }

  /** One turn of the loop. */
  function Handle(w: World, e: Event, wasStarted: bool): World {
    match e
    case Unregister => Unregistered(w)
    case Register(uuid, now) => Registered(w, uuid, now)
    case Log => w
    case OpEvent(_, _, _, _, _, _, _, _, _, _, _) => HandleOp(Preregistered(w, e, wasStarted), e)
  }

  function HandleAll(w: World, events: seq<Event>, wasStarted: bool): World {
    if events == [] then w
      else Handle(HandleAll(w, events[..|events| - 1], wasStarted), events[|events| - 1], wasStarted)
  }

  // ---- The invariant ----

  /** A finishing time is recorded exactly for ended operations, and each was ended
      once. */
  ghost predicate RowsOk(w: World) {
    && (forall id | id in w.ops :: w.ops[id].id == id && id < w.nextId)
    && (forall id | id in w.ops :: w.ops[id].finishedAt.Some? <==> Done(w.ops[id]))
    && (forall id | id in w.ops :: w.ended[id] == if Done(w.ops[id]) then 1 else 0)
    && (forall id | id in w.ended :: id in w.ops)
  }

  ghost predicate Tracks(w: World, fid: string) {
    fid in w.active && w.active[fid].id in w.ops && w.ops[w.active[fid].id] == w.active[fid] && !Done(w.active[fid])
  }

  /** Each FID stands for its own operation, which is unfinished and not stale. */
  ghost predicate ActiveOk(w: World) {
    && (forall fid | fid in w.active :: Tracks(w, fid))
    && (forall f, g | f in w.active && g in w.active && w.active[f].id == w.active[g].id :: f == g)
  }

  ghost predicate Inv(w: World) {
    RowsOk(w) && ActiveOk(w)
  }

  // ---- When an event keeps it ----

  /** The FIDs whose objects an operation event leaves in place. */
  function Kept(w: World, e: Event): set<string>
    requires e.OpEvent?
  {
    if e.activeOp.Some? then w.active.Keys - if e.activeOp.value in w.ops then {e.dataFid} else {}
    else if e.state.Start? then w.active.Keys - {e.dataFid}
    else if e.sourceFid in w.active then w.active.Keys - {e.sourceFid, e.dataFid}
    else w.active.Keys
  }

  /** Registering under this identifier cancels the unfinished operations. */
  predicate Disrupts(w: World, uuid: string) {
    w.uuid.Some? && w.uuid.value != "" && w.uuid.value != uuid
  }

  /** The event registers the copytool first, and that cancels its operations. */
  predicate DisruptsFirst(w: World, wasStarted: bool) {
    !wasStarted && Disrupts(w, UNKNOWN_UUID)
  }

  /** An operation that the event leaves tracked or goes on with is of another copytool
      if this one's are cancelled first; an operation named explicitly is unfinished
      and not tracked under another FID. */
  ghost predicate GoodOp(w: World, e: Event, wasStarted: bool)
    requires e.OpEvent?
  {
    && (forall fid | fid in Kept(w, e) :: DisruptsFirst(w, wasStarted) ==> w.active[fid].copytool != w.self)
    && (e.activeOp.Some? && e.activeOp.value in w.ops ==>
          var op := w.ops[e.activeOp.value];
          && !Done(op) && (DisruptsFirst(w, wasStarted) ==> op.copytool != w.self)
          && forall fid | fid in Kept(w, e) :: w.active[fid].id != e.activeOp.value)
    && (e.activeOp.None? && !e.state.Start? && e.sourceFid in w.active ==>
          DisruptsFirst(w, wasStarted) ==> w.active[e.sourceFid].copytool != w.self)
  }

  ghost predicate Good(w: World, e: Event, wasStarted: bool) {
    match e
    case Unregister => true
    case Register(uuid, _) => Disrupts(w, uuid) ==> forall fid | fid in w.active :: w.active[fid].copytool != w.self
    case Log => true
    case OpEvent(_, _, _, _, _, _, _, _, _, _, _) => GoodOp(w, e, wasStarted)
  }

  /** The same for an operation event, once the registration has been made. */
  ghost predicate Unspoilt(w: World, e: Event)
    requires e.OpEvent?
  {
    && (forall fid | fid in Kept(w, e) :: Tracks(w, fid))
    && (e.activeOp.Some? && e.activeOp.value in w.ops ==>
          !Done(w.ops[e.activeOp.value]) && forall fid | fid in Kept(w, e) :: w.active[fid].id != e.activeOp.value)
    && (e.activeOp.None? && !e.state.Start? && e.sourceFid in w.active ==> Tracks(w, e.sourceFid))
  }

  /** A registration spoils the objects of this copytool's operations and no others. */
  lemma RegistrationSpoils(w: World, uuid: string, now: nat, fid: string)
    requires Inv(w) && fid in w.active
    ensures Tracks(Registered(w, uuid, now), fid) <==> !(Disrupts(w, uuid) && w.active[fid].copytool == w.self)
  {
    assert Tracks(w, fid);
    assert IsCurrent(w, w.active[fid].id) <==> w.active[fid].copytool == w.self;
  }

  lemma GoodIsUnspoilt(w: World, e: Event, wasStarted: bool)
    requires e.OpEvent? && Inv(w)
    ensures GoodOp(w, e, wasStarted) <==> Unspoilt(Preregistered(w, e, wasStarted), e)
  {
    var r := Preregistered(w, e, wasStarted);
    assert r.active == w.active && r.ops.Keys == w.ops.Keys && Kept(r, e) == Kept(w, e);
    forall fid | fid in w.active
      ensures Tracks(r, fid) <==> !(DisruptsFirst(w, wasStarted) && w.active[fid].copytool == w.self)
    {
      if wasStarted {
        assert Tracks(w, fid);
      } else {
        RegistrationSpoils(w, UNKNOWN_UUID, e.now, fid);
      }
    }
    if e.activeOp.Some? && e.activeOp.value in w.ops {
      ExplicitAfterRegistration(w, e, wasStarted);
    }
  }

  lemma ExplicitAfterRegistration(w: World, e: Event, wasStarted: bool)
    requires e.OpEvent? && e.activeOp.Some? && e.activeOp.value in w.ops
    ensures var r := Preregistered(w, e, wasStarted);
            var op := w.ops[e.activeOp.value];
            && e.activeOp.value in r.ops
            && (Done(r.ops[e.activeOp.value]) <==> Done(op) || (DisruptsFirst(w, wasStarted) && op.copytool == w.self))
  {
    var op := w.ops[e.activeOp.value];
    assert IsCurrent(w, e.activeOp.value) <==> op.copytool == w.self && !Done(op);
  }

  /** What a registration leaves: the objects are as they were, but some rows behind
      them may have been cancelled. */
  ghost predicate LoadedOk(w: World) {
    && (forall fid | fid in w.active :: Loaded(w, fid))
    && (forall f, g | f in w.active && g in w.active && w.active[f].id == w.active[g].id :: f == g)
  }

  ghost predicate Loaded(w: World, fid: string) {
    && fid in w.active && w.active[fid].id in w.ops && !Done(w.active[fid]) && w.active[fid].finishedAt.None?
    && (w.ops[w.active[fid].id] == w.active[fid] || Done(w.ops[w.active[fid].id]))
  }

  lemma RegisteredKeepsRows(w: World, uuid: string, now: nat)
    requires Inv(w)
    ensures RowsOk(Registered(w, uuid, now)) && LoadedOk(Registered(w, uuid, now))
    ensures Registered(w, uuid, now).active == w.active
  {
    CancellingKeepsRows(w, now);
    RegistrationLoads(w, uuid, now);
  }

  lemma RegistrationLoads(w: World, uuid: string, now: nat)
    requires ActiveOk(w) && forall fid | fid in w.active :: w.active[fid].finishedAt.None?
    ensures LoadedOk(Registered(w, uuid, now)) && Registered(w, uuid, now).active == w.active
  {
    forall fid | fid in w.active ensures Loaded(Registered(w, uuid, now), fid) {
      RegistrationKeepsLoaded(w, uuid, now, fid);
    }
  }

  lemma RegistrationKeepsLoaded(w: World, uuid: string, now: nat, fid: string)
    requires Tracks(w, fid) && w.active[fid].finishedAt.None?
    ensures Loaded(Registered(w, uuid, now), fid)
  {
  }

  lemma CancellingKeepsRows(w: World, now: nat)
    requires RowsOk(w)
    ensures RowsOk(CancelCurrent(w, now))
  {
    var t := CancelCurrent(w, now);
    forall id | id in t.ops ensures t.ended[id] == if Done(t.ops[id]) then 1 else 0 {
      assert id in CurrentOps(w) <==> IsCurrent(w, id);
    }
  }

  lemma EndingKeeps(w: World, fid: string, ended: Op)
    requires Inv(w) && fid in w.active && ended.id == w.active[fid].id && Done(ended) && ended.finishedAt.Some?
    ensures Inv(SavedAsEnded(w, fid, ended))
  {
    var t := SavedAsEnded(w, fid, ended);
    assert Tracks(w, fid);
    forall f | f in t.active ensures Tracks(t, f) {
      assert Tracks(w, f) && w.active[f].id != ended.id;
    }
  }

  lemma UpdatingKeeps(w: World, fid: string, updated: Op)
    requires Inv(w) && fid in w.active && updated.id == w.active[fid].id && !Done(updated) && updated.finishedAt.None?
    ensures Inv(Saved(w, updated).(active := w.active[fid := updated]))
  {
    var t := Saved(w, updated).(active := w.active[fid := updated]);
    assert Tracks(w, fid);
    forall f | f in t.active ensures Tracks(t, f) {
      assert Tracks(w, f) && (f != fid ==> w.active[f].id != updated.id);
    }
  }

  lemma ProgressKeeps(w: World, e: Event)
    requires e.OpEvent? && Inv(w) && e.dataFid in w.active
    ensures Inv(Progress(w, e))
  {
    var op := w.active[e.dataFid];
    assert Tracks(w, e.dataFid);
    match e.state {
      case Finish => EndingKeeps(w, e.dataFid, Ended(op, e.time, e.state, e.error));
      case Error => EndingKeeps(w, e.dataFid, Ended(op, e.time, e.state, e.error));
      case RunningEvent => UpdatingKeeps(w, e.dataFid, Updated(op, e.time, e.current, e.total));
      case _ =>
    }
  }

  function Reload(w: World, e: Event): World
    requires e.OpEvent? && e.activeOp.Some? && e.activeOp.value in w.ops
  {
    w.(active := w.active[e.dataFid := w.ops[e.activeOp.value]])
  }

  function Rekey(w: World, e: Event): World
    requires e.OpEvent? && e.sourceFid in w.active
  {
    w.(active := (w.active - {e.sourceFid})[e.dataFid := w.active[e.sourceFid]])
  }

  lemma ReloadKeeps(w: World, e: Event)
    requires e.OpEvent? && RowsOk(w) && LoadedOk(w) && Unspoilt(w, e) && e.activeOp.Some? && e.activeOp.value in w.ops
    ensures Inv(Reload(w, e))
  {
    var t := Reload(w, e);
    forall fid | fid in t.active ensures Tracks(t, fid) {
      assert fid != e.dataFid ==> fid in Kept(w, e) && Tracks(w, fid);
    }
  }

  lemma RekeyKeeps(w: World, e: Event)
    requires e.OpEvent? && RowsOk(w) && LoadedOk(w) && Unspoilt(w, e)
    requires e.activeOp.None? && !e.state.Start? && e.sourceFid in w.active
    ensures Inv(Rekey(w, e))
  {
    var t := Rekey(w, e);
    forall fid | fid in t.active ensures Tracks(t, fid) {
      assert fid != e.dataFid ==> fid in Kept(w, e) && Tracks(w, fid);
    }
  }

  lemma CreateKeeps(w: World, e: Event)
    requires e.OpEvent? && RowsOk(w) && LoadedOk(w) && Unspoilt(w, e) && e.activeOp.None? && e.state.Start?
    ensures Inv(Created(w, e))
  {
    var t := Created(w, e);
    forall fid | fid in t.active ensures Tracks(t, fid) {
      assert fid != e.dataFid ==> fid in Kept(w, e) && Tracks(w, fid);
    }
  }

  lemma UnspoiltKeeps(w: World, e: Event)
    requires e.OpEvent? && RowsOk(w) && LoadedOk(w) && Unspoilt(w, e)
    ensures Inv(HandleOp(w, e))
  {
    if e.activeOp.Some? {
      if e.activeOp.value in w.ops {
        ReloadKeeps(w, e);
        ProgressKeeps(Reload(w, e), e);
      } else {
        assert Kept(w, e) == w.active.Keys;
      }
    } else if e.state.Start? {
      CreateKeeps(w, e);
    } else if e.sourceFid in w.active {
      RekeyKeeps(w, e);
      ProgressKeeps(Rekey(w, e), e);
    }
  }

  // ---- An event that is not good breaks it ----

  lemma ProgressFrame(w: World, e: Event, fid: string)
    requires e.OpEvent? && e.dataFid in w.active && fid in w.active && fid != e.dataFid
    ensures fid in Progress(w, e).active && Progress(w, e).active[fid] == w.active[fid]
    ensures w.active[fid].id in w.ops && w.active[fid].id != w.active[e.dataFid].id ==>
              w.active[fid].id in Progress(w, e).ops && Progress(w, e).ops[w.active[fid].id] == w.ops[w.active[fid].id]
  {
  }

  /** Ending, updating or keeping an operation whose row is already ended breaks it. */
  lemma ProgressOfEndedBreaks(w: World, e: Event)
    requires e.OpEvent? && e.dataFid in w.active
    requires var id := w.active[e.dataFid].id; id in w.ops && Done(w.ops[id]) && w.ended[id] == 1
    ensures !Inv(Progress(w, e))
  {
    var t := Progress(w, e);
    var op := w.active[e.dataFid];
    assert op.id in t.ops;
    if e.state.Finish? || e.state.Error? {
      assert t.ended[op.id] == 2;
    } else if e.state.RunningEvent? {
      assert !Done(t.ops[op.id]) && t.ended[op.id] == 1;
    } else {
      assert !Tracks(t, e.dataFid);
    }
  }

  /** So does progress of an operation that another FID stands for as well. */
  lemma ProgressOfSharedBreaks(w: World, e: Event, fid: string)
    requires e.OpEvent? && e.dataFid in w.active && fid in w.active && fid != e.dataFid
    requires w.active[fid].id == w.active[e.dataFid].id
    ensures !Inv(Progress(w, e))
  {
    var t := Progress(w, e);
    ProgressFrame(w, e, fid);
    if e.state.Finish? || e.state.Error? {
      assert !Tracks(t, fid);
    } else {
      assert t.active[e.dataFid].id == t.active[fid].id;
    }
  }

  /** Two objects under different FIDs are different operations, so what happens to one
      leaves the row of the other alone. */
  lemma KeptIsUntouched(w: World, e: Event, fid: string)
    requires e.OpEvent? && RowsOk(w) && LoadedOk(w) && fid in Kept(w, e)
    requires e.activeOp.Some? && e.activeOp.value in w.ops ==> w.active[fid].id != e.activeOp.value
    ensures var t := HandleOp(w, e);
            fid in t.active && t.active[fid] == w.active[fid] &&
            w.active[fid].id in t.ops && t.ops[w.active[fid].id] == w.ops[w.active[fid].id]
  {
    assert Loaded(w, fid);
    if e.activeOp.Some? {
      if e.activeOp.value in w.ops {
        ProgressFrame(Reload(w, e), e, fid);
      }
    } else if !e.state.Start? && e.sourceFid in w.active {
      ProgressFrame(Rekey(w, e), e, fid);
    }
  }

  lemma ExplicitIsElsewhereUntracked(w: World, e: Event, fid: string)
    requires e.OpEvent? && RowsOk(w) && Inv(HandleOp(w, e)) && fid in Kept(w, e)
    requires e.activeOp.Some? && e.activeOp.value in w.ops
    ensures w.active[fid].id != e.activeOp.value
  {
    if w.active[fid].id == e.activeOp.value {
      ProgressOfSharedBreaks(Reload(w, e), e, fid);
      assert false;
    }
  }

  lemma ExplicitIsUnfinished(w: World, e: Event)
    requires e.OpEvent? && RowsOk(w) && Inv(HandleOp(w, e))
    requires e.activeOp.Some? && e.activeOp.value in w.ops
    ensures !Done(w.ops[e.activeOp.value])
  {
    if Done(w.ops[e.activeOp.value]) {
      ProgressOfEndedBreaks(Reload(w, e), e);
      assert false;
    }
  }

  lemma MovedIsUncancelled(w: World, e: Event)
    requires e.OpEvent? && RowsOk(w) && LoadedOk(w) && Inv(HandleOp(w, e))
    requires e.activeOp.None? && !e.state.Start? && e.sourceFid in w.active
    ensures Tracks(w, e.sourceFid)
  {
    assert Loaded(w, e.sourceFid);
    if !Tracks(w, e.sourceFid) {
      ProgressOfEndedBreaks(Rekey(w, e), e);
      assert false;
    }
  }

  lemma UnspoiltIsNeeded(w: World, e: Event)
    requires e.OpEvent? && RowsOk(w) && LoadedOk(w) && Inv(HandleOp(w, e))
    ensures Unspoilt(w, e)
  {
    forall fid | fid in Kept(w, e)
      ensures Tracks(w, fid)
      ensures e.activeOp.Some? && e.activeOp.value in w.ops ==> w.active[fid].id != e.activeOp.value
    {
      if e.activeOp.Some? && e.activeOp.value in w.ops {
        ExplicitIsElsewhereUntracked(w, e, fid);
      }
      KeptIsUntouched(w, e, fid);
      assert Tracks(HandleOp(w, e), fid);
    }
    if e.activeOp.Some? && e.activeOp.value in w.ops {
      ExplicitIsUnfinished(w, e);
    }
    if e.activeOp.None? && !e.state.Start? && e.sourceFid in w.active {
      MovedIsUncancelled(w, e);
    }
  }

  /** Whatever the event, the invariant survives it exactly if the event is good. */
  lemma EventKeepsInvariantExactlyWhenGood(w: World, e: Event, wasStarted: bool)
    requires Inv(w)
    ensures Inv(Handle(w, e, wasStarted)) <==> Good(w, e, wasStarted)
  {
    match e {
      case Unregister =>
        var t := Unregistered(w);
        assert forall fid | fid in w.active :: Tracks(w, fid) && Tracks(t, fid);
      case Log =>
      case Register(uuid, now) =>
        RegisteredKeepsRows(w, uuid, now);
        forall fid | fid in w.active
          ensures Tracks(Registered(w, uuid, now), fid) <==> !(Disrupts(w, uuid) && w.active[fid].copytool == w.self)
        {
          RegistrationSpoils(w, uuid, now, fid);
        }
      case OpEvent(_, _, _, _, _, _, _, _, _, _, _) =>
        var r := Preregistered(w, e, wasStarted);
        GoodIsUnspoilt(w, e, wasStarted);
        if wasStarted {
          assert forall fid | fid in w.active :: Tracks(w, fid) && Loaded(w, fid);
        } else {
          RegisteredKeepsRows(w, UNKNOWN_UUID, e.now);
        }
        if Unspoilt(r, e) {
          UnspoiltKeeps(r, e);
        } else if Inv(HandleOp(r, e)) {
          UnspoiltIsNeeded(r, e);
        }
    }
  }

  /** The world after the first `n` events of a batch. */
  function After(w: World, events: seq<Event>, n: nat, wasStarted: bool): World
    requires n <= |events|
  {
    HandleAll(w, events[..n], wasStarted)
  }

  /** Every event is good when its turn comes. */
  ghost predicate GoodBatch(w: World, events: seq<Event>, wasStarted: bool) {
    forall n: nat {:trigger After(w, events, n, wasStarted)} | n < |events| ::
      Good(After(w, events, n, wasStarted), events[n], wasStarted)
  }

  ghost predicate InvThroughout(w: World, events: seq<Event>, wasStarted: bool) {
    forall n: nat {:trigger After(w, events, n, wasStarted)} | n <= |events| :: Inv(After(w, events, n, wasStarted))
  }

  lemma AfterNext(w: World, events: seq<Event>, n: nat, wasStarted: bool)
    requires n < |events|
    ensures After(w, events, n + 1, wasStarted) == Handle(After(w, events, n, wasStarted), events[n], wasStarted)
  {
    assert events[..n + 1][..|events[..n + 1]| - 1] == events[..n];
  }

  lemma {:induction false} GoodBatchKeeps(w: World, events: seq<Event>, n: nat, wasStarted: bool)
    requires Inv(w) && GoodBatch(w, events, wasStarted) && n <= |events|
    ensures Inv(After(w, events, n, wasStarted))
  {
    if n == 0 {
      assert events[..0] == [];
    } else {
      GoodBatchKeeps(w, events, n - 1, wasStarted);
      EventKeepsInvariantExactlyWhenGood(After(w, events, n - 1, wasStarted), events[n - 1], wasStarted);
      AfterNext(w, events, n - 1, wasStarted);
    }
  }

  /** The invariant holds after every event of a batch exactly if every event was good
      at its turn: then no operation is ended twice, and the answer maps distinct FIDs
      to distinct unfinished operations. */
  lemma BatchKeepsInvariantExactlyWhenGood(w: World, events: seq<Event>, wasStarted: bool)
    requires Inv(w)
    ensures InvThroughout(w, events, wasStarted) <==> GoodBatch(w, events, wasStarted)
  {
    if GoodBatch(w, events, wasStarted) {
      forall n: nat | n <= |events| ensures Inv(After(w, events, n, wasStarted)) {
        GoodBatchKeeps(w, events, n, wasStarted);
      }
    }
    if InvThroughout(w, events, wasStarted) {
      forall n: nat | n < |events| ensures Good(After(w, events, n, wasStarted), events[n], wasStarted) {
        AfterNext(w, events, n, wasStarted);
        EventKeepsInvariantExactlyWhenGood(After(w, events, n, wasStarted), events[n], wasStarted);
      }
    }
  }

  // ---- What an event changes ----

  /** The row of a new operation: the event's type, path, FID and time, and nothing yet of
      its progress. */
  ghost predicate StartsAs(op: Op, id: nat, copytool: nat, e: Event)
    requires e.OpEvent?
  {
    && op.id == id && op.copytool == copytool && op.typ == e.typ && op.fid == e.dataFid && op.path == e.path
    && op.startedAt == e.time && op.state == Started
    && op.updatedAt.None? && op.finishedAt.None? && op.processed.None? && op.total.None? && op.info.None?
  }

  ghost predicate SameOperation(op: Op, was: Op) {
    op.id == was.id && op.copytool == was.copytool && op.typ == was.typ && op.fid == was.fid && op.path == was.path
    && op.startedAt == was.startedAt
  }

  ghost predicate SameProgress(op: Op, was: Op) {
    op.updatedAt == was.updatedAt && op.processed == was.processed && op.total == was.total
  }

  /** The row says what the event said, and otherwise what it said before. */
  ghost predicate Records(op: Op, was: Op, e: Event)
    requires e.OpEvent?
  {
    SameOperation(op, was) &&
    match e.state
    case Finish =>
      op.state == Finished && op.finishedAt == Some(e.time) && op.info == was.info && SameProgress(op, was)
    case Error =>
      op.state == Errored && op.finishedAt == Some(e.time) && op.info == e.error && SameProgress(op, was)
    case RunningEvent =>
      && op.state == Running && op.updatedAt == Some(e.time) && op.processed == Some(e.current)
      && op.total == Some(e.total) && op.finishedAt == was.finishedAt && op.info == was.info
    case _ => op == was
  }

  /** Row `id` records the event, no other row changes or appears, and the FID of the event
      stands for it exactly until it ends. */
  ghost predicate WritesOnly(w: World, t: World, id: nat, e: Event)
    requires e.OpEvent?
  {
    && t.ops.Keys == w.ops.Keys && id in w.ops && Records(t.ops[id], w.ops[id], e)
    && (forall x | x in w.ops && x != id :: t.ops[x] == w.ops[x])
    && (e.dataFid in t.active <==> !(e.state.Finish? || e.state.Error?))
    && (e.dataFid in t.active ==> t.active[e.dataFid] == t.ops[id])
  }

  /** The FIDs outside `fids` stand for what they did. */
  ghost predicate SameOutside(w: World, t: World, fids: set<string>) {
    && (forall fid | fid in w.active && fid !in fids :: fid in t.active && t.active[fid] == w.active[fid])
    && (forall fid | fid in t.active && fid !in fids :: fid in w.active)
  }

  lemma ProgressWrites(w: World, e: Event)
    requires e.OpEvent? && e.dataFid in w.active
    requires var op := w.active[e.dataFid]; op.id in w.ops && w.ops[op.id] == op
    ensures WritesOnly(w, Progress(w, e), w.active[e.dataFid].id, e)
    ensures SameOutside(w, Progress(w, e), {e.dataFid})
  {
  }

  /** An event that names an operation writes its row and no other; the answer lists it under
      the event's FID exactly until it ends.  An unknown operation changes nothing. */
  lemma NamedOperationIsWritten(w: World, e: Event)
    requires e.OpEvent? && Inv(w) && e.activeOp.Some?
    ensures var t := HandleOp(w, e);
            if e.activeOp.value in w.ops
            then WritesOnly(w, t, e.activeOp.value, e) && SameOutside(w, t, {e.dataFid})
            else t == w
  {
    if e.activeOp.value in w.ops {
      ProgressWrites(Reload(w, e), e);
    }
  }

  /** A start that names none adds one row and changes none. */
  lemma StartAddsARow(w: World, e: Event)
    requires e.OpEvent? && Inv(w) && e.activeOp.None? && e.state.Start?
    ensures var t := HandleOp(w, e);
            && t.ops.Keys == w.ops.Keys + {w.nextId} && w.nextId !in w.ops && t.nextId == w.nextId + 1
            && StartsAs(t.ops[w.nextId], w.nextId, w.self, e)
            && (forall x | x in w.ops :: t.ops[x] == w.ops[x])
            && e.dataFid in t.active && t.active[e.dataFid] == t.ops[w.nextId] && SameOutside(w, t, {e.dataFid})
  {
  }

  /** Any other event goes to the operation under its source FID, which moves to its data
      FID; with none there, nothing changes. */
  lemma TrackedOperationIsWritten(w: World, e: Event)
    requires e.OpEvent? && Inv(w) && e.activeOp.None? && !e.state.Start?
    ensures var t := HandleOp(w, e);
            if e.sourceFid in w.active
            then && WritesOnly(w, t, w.active[e.sourceFid].id, e) && SameOutside(w, t, {e.dataFid, e.sourceFid})
                 && (e.sourceFid != e.dataFid ==> e.sourceFid !in t.active)
            else t == w
  {
    if e.sourceFid in w.active {
      assert Tracks(w, e.sourceFid);
      ProgressWrites(Rekey(w, e), e);
    }
  }

  /** Registering: an unfinished operation of this copytool is ended as failed, now, if
      another identifier was registered; all else of the rows stays. */
  lemma RegistrationWrites(w: World, uuid: string, now: nat, id: nat)
    requires id in w.ops
    ensures var t := Registered(w, uuid, now);
            && t.uuid == Some(uuid) && t.registered && t.ops.Keys == w.ops.Keys && t.nextId == w.nextId
            && t.active == w.active
            && (if w.uuid.Some? && w.uuid.value != "" && w.uuid.value != uuid && w.ops[id].copytool == w.self &&
                   w.ops[id].state != Finished && w.ops[id].state != Errored
                then && t.ops[id].state == Errored && t.ops[id].finishedAt == Some(now)
                     && t.ops[id].info == w.ops[id].info
                     && SameOperation(t.ops[id], w.ops[id]) && SameProgress(t.ops[id], w.ops[id])
                else t.ops[id] == w.ops[id])
  {
    assert IsCurrent(w, id) <==>
      w.ops[id].copytool == w.self && w.ops[id].state != Finished && w.ops[id].state != Errored;
  }

  // ---- A batch that is not good ----

  /** A second running instance registers between the start and the end of an
      operation: the registration cancels the operation's row, and the end event ends
      it once more from the object loaded before. */
  lemma ReregistrationEndsAnOperationTwice(w: World, events: seq<Event>)
    requires w == World(map[], 0, 1, Some("a"), true, map[], multiset{})
    requires events == [OpEvent(Archive, Start, 1, 1, "f", "f", "p", None, 0, 0, None),
                        Register("b", 2),
                        OpEvent(Archive, Finish, 3, 3, "f", "f", "p", None, 0, 0, None)]
    ensures Inv(w) && !GoodBatch(w, events, true) && HandleAll(w, events, true).ended[0] == 2
  {
    assert events[..1][..0] == [] && events[..2][..1] == events[..1] && events[..3] == events;
    var w1 := HandleAll(w, events[..1], true);
    var op := Op(0, 1, Archive, "f", "p", Started, 1, None, None, None, None, None);
    assert HandleAll(w, [], true) == w;
    assert w1 == World(map[0 := op], 1, 1, Some("a"), true, map["f" := op], multiset{});
    var w2 := HandleAll(w, events[..2], true);
    assert w2 == Registered(w1, "b", 2);
    assert IsCurrent(w1, 0);
    assert CurrentOps(w1) == {0};
    assert w2.ended[0] == 1 && !Tracks(w2, "f");
    assert After(w, events, 1, true) == w1 && !Good(w1, events[1], true);
  }

  // ---- The handler ----

  class EventHandler {
    const self: nat
    var ops: map<nat, Op>
    var nextId: nat
    var uuid: Option<string>
    var registered: bool
    ghost var ended: multiset<nat>

    ghost function Value(active: map<string, Op>): World
      reads this
    {
      World(ops, nextId, self, uuid, registered, active, ended)
    }

    constructor (self: nat)
      ensures this.self == self && Value(map[]) == World(map[], 0, self, None, false, map[], multiset{})
    {
      this.self := self;
      ops, nextId, uuid, registered, ended := map[], 0, None, false, multiset{};
    }

    method Save(op: Op)
      modifies this`ops
      ensures ops == old(ops)[op.id := op]
    {
      ops := ops[op.id := op];
    }

    method CancelCurrentOperations(now: nat, ghost active: map<string, Op>)
      modifies this`ops, this`ended
      ensures Value(active) == CancelCurrent(old(Value(active)), now)
    {
      ghost var before := Value(active);
      var current := set id | id in ops && ops[id].copytool == self && !Done(ops[id]);
      assert current == CurrentOps(before);
      EndAll(current, now);
      ended := ended + multiset(current);
      assert ops == CancelCurrent(before, now).ops;
    }

    method EndAll(current: set<nat>, now: nat)
      requires current <= ops.Keys
      modifies this`ops
      ensures ops == map id | id in old(ops) :: if id in current then CancelledOp(old(ops)[id], now) else old(ops)[id]
    {
      var todo := current;
      while todo != {}
        invariant todo <= current && ops.Keys == old(ops).Keys
        invariant forall id | id in ops ::
                    ops[id] == if id in current && id !in todo then CancelledOp(old(ops)[id], now) else old(ops)[id]
        decreases todo
      {
        var id :| id in todo;
        ops := ops[id := CancelledOp(ops[id], now)];
        todo := todo - {id};
      }
    }

    method RegisterCopytool(newUuid: string, now: nat, ghost active: map<string, Op>)
      modifies this
      ensures Value(active) == Registered(old(Value(active)), newUuid, now)
    {
      if uuid.Some? && uuid.value != "" && uuid.value != newUuid {
        CancelCurrentOperations(now, active);
      }
      uuid, registered := Some(newUuid), true;
    }

    /** What happens to the object under the event's data FID. */
    method ProgressOp(active: map<string, Op>, e: Event) returns (after: map<string, Op>)
      requires e.OpEvent? && e.dataFid in active
      modifies this`ops, this`ended
      ensures Value(after) == Progress(old(Value(active)), e)
    {
      after := active;
      var op := active[e.dataFid];
      if e.state == Finish || e.state == Error {
        Save(Ended(op, e.time, e.state, e.error));
        ended := ended + multiset{op.id};
        after := active - {e.dataFid};
      } else if e.state == RunningEvent {
        op := Updated(op, e.time, e.current, e.total);
        Save(op);
        after := active[e.dataFid := op];
      }
    }

    method HandleOpEvent(active: map<string, Op>, e: Event, wasStarted: bool) returns (after: map<string, Op>)
      requires e.OpEvent?
      modifies this
      ensures Value(after) == Handle(old(Value(active)), e, wasStarted)
    {
      if !wasStarted {
        RegisterCopytool(UNKNOWN_UUID, e.now, active);
      }
      after := active;
      if e.activeOp.Some? {
        if e.activeOp.value in ops {
          after := ProgressOp(active[e.dataFid := ops[e.activeOp.value]], e);
        }
      } else if e.state == Start {
        var op := Op(nextId, self, e.typ, e.dataFid, e.path, Started, e.time, None, None, None, None, None);
        nextId := nextId + 1;
        Save(op);
        after := active[e.dataFid := op];
      } else if e.sourceFid in active {
        after := ProgressOp((active - {e.sourceFid})[e.dataFid := active[e.sourceFid]], e);
      }
    }

    /** CopytoolEventView.post over events in time order. */
    method Post(events: seq<Event>, wasStarted: bool) returns (response: map<string, nat>)
      modifies this
      ensures var after := HandleAll(old(Value(map[])), events, wasStarted);
              Value(after.active) == after && response == map fid | fid in after.active :: after.active[fid].id
    {
      var active: map<string, Op> := map[];
      for i := 0 to |events|
        invariant Value(active) == HandleAll(old(Value(map[])), events[..i], wasStarted)
      {
        var e := events[i];
        assert events[..i + 1][..|events[..i + 1]| - 1] == events[..i];
        match e {
          case Unregister => uuid, registered := None, false;
          case Register(newUuid, now) => RegisterCopytool(newUuid, now, active);
          case Log =>
          case OpEvent(_, _, _, _, _, _, _, _, _, _, _) => active := HandleOpEvent(active, e, wasStarted);
        }
      }
      assert events[..|events|] == events;
      response := map fid | fid in active :: active[fid].id;
    }
  }
}
