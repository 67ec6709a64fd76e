/** A command keeps one alert record, which saving the command casts from type to type. */
module CommandAlert {
  import opened Basics

  datatype AlertType = Running | Successful | Cancelled | Errored | Other(name: string)

  datatype Alert = Alert(typ: AlertType, severity: nat, active: bool, begin: nat, end: Option<nat>)

  /** The flags a command is saved with, and when. */
  datatype Save = Save(complete: bool, errored: bool, cancelled: bool, now: nat)

  const INFO := 20
  const ERROR := 40

  function DefaultSeverity(typ: AlertType): nat {
    match typ
    case Cancelled => ERROR
    case Errored => ERROR
    case _ => INFO
  }

  function WantedType(s: Save): AlertType {
    if !s.complete then Running else if s.errored then Errored else if s.cancelled then Cancelled else Successful
  }

  /** The first command alert among the item's records. */
  function Find(alerts: seq<Alert>): (r: Option<nat>)
    ensures r.Some? ==> r.value < |alerts| && !alerts[r.value].typ.Other?
    ensures r.Some? ==> forall i | 0 <= i < r.value :: alerts[i].typ.Other?
    ensures r.None? ==> forall i | 0 <= i < |alerts| :: alerts[i].typ.Other?
  {
    if alerts == [] then None
    else if !alerts[0].typ.Other? then Some(0)
    else match Find(alerts[1..]) case None => None case Some(i) => Some(i + 1)
  }

  /** Every save at most adds one record and writes one. */
  function Saved(alerts: seq<Alert>, s: Save): seq<Alert> {
    var all := if Find(alerts).Some? then alerts else alerts + [Alert(Running, INFO, true, s.now, None)];
    var i := if Find(alerts).Some? then Find(alerts).value else |alerts|;
    var cast := all[i].(typ := WantedType(s));
    all[i := if s.complete && cast.active then cast.(active := false, end := Some(s.now)) else cast]
  }

  function SavedAll(alerts: seq<Alert>, saves: seq<Save>): seq<Alert> {
    if saves == [] then alerts else Saved(SavedAll(alerts, saves[..|saves| - 1]), saves[|saves| - 1])
  }

  ghost predicate NoCommandAlert(alerts: seq<Alert>) {
    forall i | 0 <= i < |alerts| :: alerts[i].typ.Other?
  }

  /** The other records are untouched and one command alert stands behind them. */
  ghost predicate OnlyAt(others: seq<Alert>, alerts: seq<Alert>) {
    |alerts| == |others| + 1 && alerts[..|others|] == others && !alerts[|others|].typ.Other?
  }

  lemma FindsIt(others: seq<Alert>, alerts: seq<Alert>)
    requires NoCommandAlert(others) && OnlyAt(others, alerts)
    ensures Find(alerts) == Some(|others|)
  {
    forall i | 0 <= i < |others| ensures alerts[i].typ.Other? {
      assert alerts[i] == alerts[..|others|][i];
    }
  }

  /** The time of the first save of a completed command. */
  function FirstComplete(saves: seq<Save>): (r: Option<nat>)
    ensures r.Some? <==> exists k :: 0 <= k < |saves| && saves[k].complete
    ensures r.Some? ==> exists k :: && 0 <= k < |saves| && saves[k].complete && saves[k].now == r.value
                                    && forall j | 0 <= j < k :: !saves[j].complete
  {
    if saves == [] then None
    else if saves[0].complete then Some(saves[0].now)
    else
      assert forall k | 0 <= k < |saves| - 1 :: saves[1..][k] == saves[k + 1];
      assert forall k | 1 <= k < |saves| :: saves[k] == saves[1..][k - 1];
      var r := FirstComplete(saves[1..]);
      assert r.Some? ==>
        exists k :: 1 <= k < |saves| && saves[k].complete && saves[k].now == r.value &&
                    forall j | 0 <= j < k :: !saves[j].complete by {
        if r.Some? {
          var k :| 0 <= k < |saves[1..]| && saves[1..][k].complete && saves[1..][k].now == r.value &&
                   forall j | 0 <= j < k :: !saves[1..][j].complete;
          assert saves[k + 1] == saves[1..][k];
        }
      }
      r
  }

  lemma {:induction false} FirstCompleteFromBack(saves: seq<Save>)
    requires saves != []
    ensures var before := FirstComplete(saves[..|saves| - 1]);
            var last := saves[|saves| - 1];
            FirstComplete(saves) == if before.Some? then before else if last.complete then Some(last.now) else None
  {
    if |saves| == 1 {
    } else if !saves[0].complete {
      FirstCompleteFromBack(saves[1..]);
      assert saves[1..][..|saves[1..]| - 1] == saves[..|saves| - 1][1..];
    }
  }

  /** Over any saves of a new command there is one command alert.  Its type follows the
      last flags, errors first.  It is active until the first save of the completed
      command, is closed by that save and never again, and the other records stay. */
  lemma {:induction false} OneAlertPerCommand(others: seq<Alert>, saves: seq<Save>)
    requires NoCommandAlert(others) && saves != []
    ensures var alerts := SavedAll(others, saves);
            && OnlyAt(others, alerts)
            && alerts[|others|] == Alert(WantedType(saves[|saves| - 1]), INFO, FirstComplete(saves).None?,
                                         saves[0].now, FirstComplete(saves))
    ensures var typ, last := SavedAll(others, saves)[|others|].typ, saves[|saves| - 1];
            && (typ == Running <==> !last.complete)
            && (typ == Errored <==> last.complete && last.errored)
            && (typ == Cancelled <==> last.complete && !last.errored && last.cancelled)
            && (typ == Successful <==> last.complete && !last.errored && !last.cancelled)
  {
    var before := saves[..|saves| - 1];
    FirstCompleteFromBack(saves);
    if before == [] {
      assert SavedAll(others, before) == others;
      assert SavedAll(others, saves)[..|others|] == others;
    } else {
      OneAlertPerCommand(others, before);
      FindsIt(others, SavedAll(others, before));
      assert SavedAll(others, saves)[..|others|] == others;
    }
  }

  ghost predicate NeverReset(saves: seq<Save>) {
    forall i, j | 0 <= i <= j < |saves| && saves[i].complete :: saves[j].complete
  }

  /** After each of the saves the alert is active exactly if the command is incomplete. */
  ghost predicate ActiveWhileIncomplete(others: seq<Alert>, saves: seq<Save>)
    requires NoCommandAlert(others)
  {
    forall n | 0 < n <= |saves| :: StatusAgrees(others, saves[..n])
  }

  ghost predicate StatusAgrees(others: seq<Alert>, saves: seq<Save>)
    requires NoCommandAlert(others) && saves != []
  {
    OneAlertPerCommand(others, saves);
    SavedAll(others, saves)[|others|].active <==> !saves[|saves| - 1].complete
  }

  /** That holds exactly if a completed command is never saved as incomplete again. */
  lemma ActiveExactlyWhileIncomplete(others: seq<Alert>, saves: seq<Save>)
    requires NoCommandAlert(others)
    ensures ActiveWhileIncomplete(others, saves) <==> NeverReset(saves)
  {
    if NeverReset(saves) {
      forall n | 0 < n <= |saves| ensures StatusAgrees(others, saves[..n]) {
        OneAlertPerCommand(others, saves[..n]);
        assert saves[..n][n - 1] == saves[n - 1];
      }
    } else {
      var i, j :| 0 <= i <= j < |saves| && saves[i].complete && !saves[j].complete;
      OneAlertPerCommand(others, saves[..j + 1]);
      assert saves[..j + 1][i].complete;
      assert !StatusAgrees(others, saves[..j + 1]);
    }
  }

  /** Casting leaves the severity alone, so the alert has the default severity of its
      own type exactly if the command is not complete with an error or cancellation. */
  lemma SeverityIsDefaultExactlyWhen(others: seq<Alert>, saves: seq<Save>)
    requires NoCommandAlert(others) && saves != []
    ensures OnlyAt(others, SavedAll(others, saves))
    ensures var alert := SavedAll(others, saves)[|others|];
            var last := saves[|saves| - 1];
            alert.severity == DefaultSeverity(alert.typ) <==> !(last.complete && (last.errored || last.cancelled))
  {
    OneAlertPerCommand(others, saves);
  }

  // ---- The operations ----

  function FindActive(alerts: seq<Alert>, typ: AlertType): (r: Option<nat>)
    ensures r.Some? ==> r.value < |alerts| && alerts[r.value].typ == typ && alerts[r.value].active
    ensures r.None? ==> forall i | 0 <= i < |alerts| :: !(alerts[i].typ == typ && alerts[i].active)
  {
    if alerts == [] then None
    else if alerts[|alerts| - 1].typ == typ && alerts[|alerts| - 1].active then Some(|alerts| - 1)
    else FindActive(alerts[..|alerts| - 1], typ)
  }

  class Command {
    var complete: bool
    var errored: bool
    var cancelled: bool
    var alerts: seq<Alert>

    /** The item has at most one command alert. */
    ghost predicate Valid()
      reads this
    {
      forall i, j | 0 <= i < |alerts| && 0 <= j < |alerts| && !alerts[i].typ.Other? && !alerts[j].typ.Other? :: i == j
    }

    constructor (others: seq<Alert>)
      requires NoCommandAlert(others)
      ensures Valid() && alerts == others && !complete && !errored && !cancelled
    {
      complete, errored, cancelled, alerts := false, false, false, others;
    }

    method Cast(i: nat, typ: AlertType)
      requires i < |alerts|
      modifies this`alerts
      ensures alerts == old(alerts)[i := old(alerts)[i].(typ := typ)]
    {
      alerts := alerts[i := alerts[i].(typ := typ)];
    }

    /** Lower the active record of one type, if there is one. */
    method Lower(typ: AlertType, now: nat)
      modifies this`alerts
      ensures var found := FindActive(old(alerts), typ);
              alerts == if found.None? then old(alerts)
                        else old(alerts)[found.value := old(alerts)[found.value].(active := false, end := Some(now))]
    {
      var found := FindActive(alerts, typ);
      if found.Some? {
        alerts := alerts[found.value := alerts[found.value].(active := false, end := Some(now))];
      }
    }

    /** Command.save */
    method Store(now: nat)
      requires Valid()
      modifies this`alerts
      ensures Valid() && alerts == Saved(old(alerts), Save(complete, errored, cancelled, now))
    {
      var found := Find(alerts);
      var i := if found.Some? then found.value else |alerts|;
      if found.None? {
        alerts := alerts + [Alert(Running, INFO, true, now, None)];
      }
      assert Valid();
      var wanted := WantedType(Save(complete, errored, cancelled, now));
      if alerts[i].typ != wanted {
        Cast(i, wanted);
      }
      if complete {
        assert FindActive(alerts, wanted) == if alerts[i].active then Some(i) else None;
        Lower(wanted, now);
      }
    }

    /** Command.completed */
    method Completed(errored: bool, cancelled: bool, now: nat)
      requires Valid()
      modifies this
      ensures Valid() && complete && this.errored == errored && this.cancelled == cancelled
      ensures alerts == Saved(old(alerts), Save(true, errored, cancelled, now))
    {
      this.errored, this.cancelled, complete := errored, cancelled, true;
      Store(now);
    }
  }
}
