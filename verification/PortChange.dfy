/** Changing the multicast port of a running cluster, as a list of steps. */
module PortChange {
  import opened Basics

  datatype Peer = Peer(fqdn: string, port: Option<nat>)

  datatype Step =
    | ActivateMaintenance(fqdn: string)
    | ChangePort(fqdn: string, port: nat)
    | SyncCluster(fqdn: string)
    | ClosePort(fqdn: string, port: nat)
    | OpenPort(fqdn: string, port: nat)
    | Restart(fqdn: string)
    | DeactivateMaintenance(fqdn: string)

  // ---- The plan ----

  function FirewallSteps(peers: seq<Peer>, port: nat): seq<Step> {
    if peers == [] then []
    else FirewallSteps(peers[..|peers| - 1], port) + PeerSteps(peers[|peers| - 1], port)
  }

  function PeerSteps(p: Peer, port: nat): seq<Step> {
    if p.port.Some? then [ClosePort(p.fqdn, p.port.value), OpenPort(p.fqdn, port)] else [OpenPort(p.fqdn, port)]
  }

  function RestartSteps(peers: seq<Peer>): seq<Step> {
    seq(|peers|, i requires 0 <= i < |peers| => Restart(peers[i].fqdn))
  }

  function Plan(host: string, peers: seq<Peer>, port: nat): seq<Step> {
    [ActivateMaintenance(host), ChangePort(host, port), SyncCluster(host)]
      + FirewallSteps(peers, port) + RestartSteps(peers) + [DeactivateMaintenance(host)]
  }

  /** ConfigureCorosync2Job.get_steps */
  method GetSteps(host: string, peers: seq<Peer>, port: nat) returns (steps: seq<Step>)
    ensures steps == Plan(host, peers, port)
    // The host is given the commands for the cluster, and the peers the others.
    ensures |steps| >= 4 && steps[..3] == [ActivateMaintenance(host), ChangePort(host, port), SyncCluster(host)]
    ensures steps[|steps| - 1] == DeactivateMaintenance(host)
    ensures forall i | 3 <= i < |steps| - 1 :: steps[i].ClosePort? || steps[i].OpenPort? || steps[i].Restart?
  {
    steps := [ActivateMaintenance(host), ChangePort(host, port), SyncCluster(host)];
    ghost var head := steps;
    for i := 0 to |peers|
      invariant steps == head + FirewallSteps(peers[..i], port)
      invariant forall k | 3 <= k < |steps| :: steps[k].ClosePort? || steps[k].OpenPort?
    {
      assert peers[..i + 1][..|peers[..i + 1]| - 1] == peers[..i];
      if peers[i].port.Some? {
        steps := steps + [ClosePort(peers[i].fqdn, peers[i].port.value)];
      }
      steps := steps + [OpenPort(peers[i].fqdn, port)];
    }
    assert peers[..|peers|] == peers;
    ghost var before := steps;
    for i := 0 to |peers|
      invariant steps == before + RestartSteps(peers)[..i]
      invariant forall k | 3 <= k < |steps| :: steps[k].ClosePort? || steps[k].OpenPort? || steps[k].Restart?
    {
      steps := steps + [Restart(peers[i].fqdn)];
    }
    steps := steps + [DeactivateMaintenance(host)];
  }

  // ---- What the agents do ----

  /** The open UDP ports of each host, the port in a host's own configuration and in
      the one all share, and for each restart whether maintenance mode was on and the
      firewalls at that moment. */
  datatype Cluster = Cluster(open: map<string, set<nat>>, edited: map<string, nat>, shared: Option<nat>,
                             maintenance: bool, restarts: seq<Restarted>)

  datatype Restarted = Restarted(fqdn: string, maintenance: bool, open: map<string, set<nat>>, port: Option<nat>)

  function OpenOn(open: map<string, set<nat>>, fqdn: string): set<nat> {
    if fqdn in open then open[fqdn] else {}
  }

  function Run(c: Cluster, step: Step): Cluster {
    match step
    case ActivateMaintenance(_) => c.(maintenance := true)
    case ChangePort(f, port) => c.(edited := c.edited[f := port])
    case SyncCluster(f) => if f in c.edited then c.(shared := Some(c.edited[f])) else c
    case ClosePort(f, port) => c.(open := c.open[f := OpenOn(c.open, f) - {port}])
    case OpenPort(f, port) => c.(open := c.open[f := OpenOn(c.open, f) + {port}])
    case Restart(f) => c.(restarts := c.restarts + [Restarted(f, c.maintenance, c.open, c.shared)])
    case DeactivateMaintenance(_) => c.(maintenance := false)
  }

  function RunAll(c: Cluster, steps: seq<Step>): Cluster {
    if steps == [] then c else Run(RunAll(c, steps[..|steps| - 1]), steps[|steps| - 1])
  }

  lemma {:induction false} RunInParts(c: Cluster, first: seq<Step>, second: seq<Step>)
    ensures RunAll(c, first + second) == RunAll(RunAll(c, first), second)
  {
    if second == [] {
      assert first + second == first;
    } else {
      RunInParts(c, first, second[..|second| - 1]);
      assert (first + second)[..|first + second| - 1] == first + second[..|second| - 1];
    }
  }

  // ---- Firewalls ----

  ghost predicate DistinctPeers(peers: seq<Peer>) {
    forall i, j | 0 <= i < j < |peers| :: peers[i].fqdn != peers[j].fqdn
  }

  /** The new port is open on the peer, its old one is closed unless it is the same, and
      other ports are as they were. */
  predicate PeerMoved(before: map<string, set<nat>>, after: map<string, set<nat>>, p: Peer, port: nat) {
    OpenOn(after, p.fqdn) == OpenOn(before, p.fqdn) - (if p.port.Some? then {p.port.value} else {}) + {port}
  }

  predicate IsPeer(f: string, peers: seq<Peer>) {
    exists i | 0 <= i < |peers| :: peers[i].fqdn == f
  }

  ghost predicate Moved(before: map<string, set<nat>>, after: map<string, set<nat>>, peers: seq<Peer>, port: nat) {
    && (forall i | 0 <= i < |peers| :: PeerMoved(before, after, peers[i], port))
    && (forall f | !IsPeer(f, peers) :: OpenOn(after, f) == OpenOn(before, f))
  }

  lemma PeerMoves(c: Cluster, p: Peer, port: nat)
    ensures var after := RunAll(c, PeerSteps(p, port));
            && after == c.(open := after.open) && PeerMoved(c.open, after.open, p, port)
            && forall f | f != p.fqdn :: OpenOn(after.open, f) == OpenOn(c.open, f)
  {
    var steps := PeerSteps(p, port);
    assert steps[..1][..0] == [] && (|steps| == 2 ==> steps[..1] == [steps[0]]);
    assert RunAll(c, []) == c;
    assert RunAll(c, [steps[0]]) == Run(c, steps[0]);
  }

  lemma MoveOneMore(a: map<string, set<nat>>, b: map<string, set<nat>>, c: map<string, set<nat>>, peers: seq<Peer>,
                    port: nat)
    requires peers != [] && DistinctPeers(peers) && Moved(a, b, peers[..|peers| - 1], port)
    requires PeerMoved(b, c, peers[|peers| - 1], port)
    requires forall f | f != peers[|peers| - 1].fqdn :: OpenOn(c, f) == OpenOn(b, f)
    ensures Moved(a, c, peers, port)
  {
    var before, p := peers[..|peers| - 1], peers[|peers| - 1];
    assert !IsPeer(p.fqdn, before);
    forall i | 0 <= i < |peers| ensures PeerMoved(a, c, peers[i], port) {
      assert i < |before| ==> before[i] == peers[i] && PeerMoved(a, b, before[i], port);
    }
    forall f | !IsPeer(f, peers) ensures OpenOn(c, f) == OpenOn(a, f) {
      assert !IsPeer(f, before) && f != p.fqdn;
    }
  }

  lemma {:induction false} FirewallsMove(c: Cluster, peers: seq<Peer>, port: nat)
    requires DistinctPeers(peers)
    ensures var after := RunAll(c, FirewallSteps(peers, port));
            after == c.(open := after.open) && Moved(c.open, after.open, peers, port)
  {
    if peers == [] {
    } else {
      var before := FirewallSteps(peers[..|peers| - 1], port);
      var last := peers[|peers| - 1];
      FirewallsMove(c, peers[..|peers| - 1], port);
      RunInParts(c, before, PeerSteps(last, port));
      PeerMoves(RunAll(c, before), last, port);
      MoveOneMore(c.open, RunAll(c, before).open, RunAll(c, FirewallSteps(peers, port)).open, peers, port);
    }
  }

  // ---- Restarts ----

  lemma {:induction false} RestartsAreRecorded(c: Cluster, peers: seq<Peer>, n: nat)
    requires n <= |peers|
    ensures RunAll(c, RestartSteps(peers)[..n]) ==
            c.(restarts := c.restarts +
              seq(n, i requires 0 <= i < n => Restarted(peers[i].fqdn, c.maintenance, c.open, c.shared)))
  {
    if n == 0 {
      assert RestartSteps(peers)[..0] == [];
    } else {
      RestartsAreRecorded(c, peers, n - 1);
      assert RestartSteps(peers)[..n][..n - 1] == RestartSteps(peers)[..n - 1];
    }
  }

  /** Running the plan moves the firewalls of all peers, restarts every peer once, each
      inside maintenance mode and after all firewall changes and the shared
      configuration, and ends with maintenance mode off. */
  lemma PlanMovesTheCluster(c: Cluster, host: string, peers: seq<Peer>, port: nat)
    requires DistinctPeers(peers) && c.restarts == []
    ensures var after := RunAll(c, Plan(host, peers, port));
            && Moved(c.open, after.open, peers, port)
            && after.shared == Some(port) && !after.maintenance
            && |after.restarts| == |peers|
            && forall i | 0 <= i < |peers| ::
              after.restarts[i] == Restarted(peers[i].fqdn, true, after.open, Some(port))
  {
    var c1 := c.(maintenance := true, edited := c.edited[host := port], shared := Some(port));
    HeadPrepares(c, host, port);
    FirewallsMove(c1, peers, port);
    var c2 := RunAll(c1, FirewallSteps(peers, port));
    RestartsAreRecorded(c2, peers, |peers|);
    assert RestartSteps(peers)[..|peers|] == RestartSteps(peers);
    PlanInParts(c, host, peers, port);
  }

  lemma PlanInParts(c: Cluster, host: string, peers: seq<Peer>, port: nat)
    ensures var head := [ActivateMaintenance(host), ChangePort(host, port), SyncCluster(host)];
            RunAll(c, Plan(host, peers, port)) ==
            RunAll(RunAll(RunAll(c, head), FirewallSteps(peers, port)), RestartSteps(peers)).(maintenance := false)
  {
    var head := [ActivateMaintenance(host), ChangePort(host, port), SyncCluster(host)];
    var most := head + FirewallSteps(peers, port) + RestartSteps(peers);
    RunInParts(c, head, FirewallSteps(peers, port));
    RunInParts(c, head + FirewallSteps(peers, port), RestartSteps(peers));
    assert Plan(host, peers, port)[..|most|] == most;
  }

  lemma HeadPrepares(c: Cluster, host: string, port: nat)
    ensures RunAll(c, [ActivateMaintenance(host), ChangePort(host, port), SyncCluster(host)])
            == c.(maintenance := true, edited := c.edited[host := port], shared := Some(port))
  {
    var head := [ActivateMaintenance(host), ChangePort(host, port), SyncCluster(host)];
    assert head[..2] == [head[0], head[1]] && head[..2][..1] == [head[0]] && [head[0]][..0] == [];
    assert RunAll(c, []) == c;
    assert RunAll(c, [head[0]]) == c.(maintenance := true);
    assert RunAll(c, head[..2]) == c.(maintenance := true, edited := c.edited[host := port]);
  }
}
