/** Hosts that report the same multicast port form a cluster: the first creates it and
    the others join.  Ports are remembered in a dictionary shared by all configurations,
    because the database learns of a port only afterwards. */
module Corosync {
  import opened Basics

  /** A row of the configuration table. */
  datatype Record = Record(fqdn: string, port: Option<nat>, deleted: bool)

  function Names(db: seq<Record>, deleted: bool): set<string> {
    set i | 0 <= i < |db| && db[i].deleted == deleted :: db[i].fqdn
  }

  /** The port the database has for a host. */
  function DbPort(db: seq<Record>, fqdn: string): (r: Option<nat>)
    ensures r.Some? ==> fqdn in Names(db, false)
  {
    if db == [] then None
    else
      var last := db[|db| - 1];
      var before := DbPort(db[..|db| - 1], fqdn);
      assert forall i | 0 <= i < |db| - 1 :: db[..|db| - 1][i] == db[i];
      if last.fqdn == fqdn && !last.deleted && last.port.Some? then last.port else before
  }

  /** The port of another host: the database wins, hosts that were deleted and not
      added again are forgotten, and the dictionary supplies the rest. */
  function KnownPort(ports: map<string, nat>, db: seq<Record>, fqdn: string): Option<nat> {
    if DbPort(db, fqdn).Some? then DbPort(db, fqdn)
    else if fqdn !in ports || (fqdn in Names(db, true) && fqdn !in Names(db, false)) then None
    else Some(ports[fqdn])
  }

  function PortIn(ports: map<string, nat>, fqdn: string): Option<nat> {
    if fqdn in ports then Some(ports[fqdn]) else None
  }

  /** The dictionary after a host reported its port. */
  ghost predicate Remembers(ports: map<string, nat>, db: seq<Record>, fqdn: string, port: nat,
                            after: map<string, nat>) {
    forall f :: PortIn(after, f) == if f == fqdn then Some(port) else KnownPort(ports, db, f)
  }

  function PeersIn(ports: map<string, nat>, fqdn: string, port: nat): set<string> {
    set f | f in ports && ports[f] == port && f != fqdn
  }

  predicate Usable(state: string) {
    state == "managed" || state == "packages_installed"
  }

  predicate HasUnusable(peers: set<string>, states: map<string, string>) {
    exists p | p in peers :: p in states && !Usable(states[p])
  }

  /** Row `i` is of the host, which is not deleted, and has its port. */
  predicate Says(db: seq<Record>, i: int, fqdn: string) {
    0 <= i < |db| && db[i].fqdn == fqdn && !db[i].deleted && db[i].port.Some?
  }

  /** The host was deleted and not added again. */
  predicate Forgotten(db: seq<Record>, fqdn: string) {
    (exists i :: 0 <= i < |db| && db[i].fqdn == fqdn && db[i].deleted) &&
    (forall i | 0 <= i < |db| && db[i].fqdn == fqdn :: db[i].deleted)
  }

  lemma {:induction false} DbPortIs(db: seq<Record>, fqdn: string)
    ensures DbPort(db, fqdn).None? <==> forall i :: !Says(db, i, fqdn)
    ensures DbPort(db, fqdn).Some? ==>
              exists i :: && Says(db, i, fqdn) && db[i].port == DbPort(db, fqdn)
                          && forall j | Says(db, j, fqdn) :: j <= i
  {
    if db != [] {
      var front, n := db[..|db| - 1], |db| - 1;
      DbPortIs(front, fqdn);
      assert forall i | i != n :: Says(db, i, fqdn) <==> Says(front, i, fqdn);
      if Says(db, n, fqdn) {
        assert db[n].port == DbPort(db, fqdn) && forall j | Says(db, j, fqdn) :: j <= n;
      } else if DbPort(front, fqdn).Some? {
        var i :| Says(front, i, fqdn) && front[i].port == DbPort(front, fqdn) &&
                 forall j | Says(front, j, fqdn) :: j <= i;
        assert Says(db, i, fqdn) && db[i].port == DbPort(db, fqdn) && forall j | Says(db, j, fqdn) :: j <= i;
      }
    }
  }

  /** Another host is known afterwards exactly if a row has its port, or the dictionary had
      it and the host was not deleted for good; the newest row wins. */
  lemma KnownExactlyWhen(ports: map<string, nat>, db: seq<Record>, fqdn: string, port: nat, after: map<string, nat>,
                         f: string)
    requires Remembers(ports, db, fqdn, port, after) && f != fqdn
    ensures f in after <==> (exists i :: Says(db, i, f)) || (f in ports && !Forgotten(db, f))
    ensures forall i | Says(db, i, f) && (forall j | Says(db, j, f) :: j <= i) ::
              f in after && after[f] == db[i].port.value
    ensures (forall i :: !Says(db, i, f)) && f in after ==> f in ports && after[f] == ports[f]
    ensures fqdn in after && after[fqdn] == port
  {
    DbPortIs(db, f);
    assert PortIn(after, f) == KnownPort(ports, db, f) && PortIn(after, fqdn) == Some(port);
    assert Forgotten(db, f) <==> f in Names(db, true) && f !in Names(db, false) by {
      if Forgotten(db, f) {
        var i :| 0 <= i < |db| && db[i].fqdn == f && db[i].deleted;
        assert db[i].fqdn in Names(db, true);
      }
    }
  }

  class PeerPorts {
    var ports: map<string, nat>

    constructor ()
      ensures ports == map[]
    {
      ports := map[];
    }

    /** AutoConfigureCorosyncStep._corosync_peers */
    method CorosyncPeers(db: seq<Record>, fqdn: string, port: nat) returns (peers: seq<string>)
      modifies this
      ensures Remembers(old(ports), db, fqdn, port, ports)
      ensures NoDuplicates(peers) && Elements(peers) == PeersIn(ports, fqdn, port)
      ensures forall f :: f in peers <==> f != fqdn && f in ports && ports[f] == port
      ensures forall f | f in peers :: (exists i :: Says(db, i, f)) || (f in old(ports) && !Forgotten(db, f))
    {
      var current := {};
      for i := 0 to |db|
        invariant forall f :: f in current <==> f in Names(db[..i], false)
        invariant forall f :: (if f in ports then Some(ports[f]) else None) ==
                              if DbPort(db[..i], f).Some? then DbPort(db[..i], f)
                              else if f in old(ports) then Some(old(ports)[f]) else None
      {
        NamesOfMore(db, i);
        assert db[..i + 1][..|db[..i + 1]| - 1] == db[..i];
        if !db[i].deleted {
          current := current + {db[i].fqdn};
          if db[i].port.Some? {
            ports := ports[db[i].fqdn := db[i].port.value];
          }
        }
      }
      assert db[..|db|] == db;
      ghost var synced := ports;
      for i := 0 to |db|
        invariant forall f :: f in ports <==> f in synced && (f in current || f !in Names(db[..i], true))
        invariant forall f | f in ports :: ports[f] == synced[f]
      {
        NamesOfMore(db, i);
        if db[i].deleted && db[i].fqdn !in current {
          ports := ports - {db[i].fqdn};
        }
      }
      ports := ports[fqdn := port];
      peers := Matching(PeersIn(ports, fqdn, port));
      assert Remembers(old(ports), db, fqdn, port, ports);
      forall f ensures f in peers <==> f != fqdn && f in ports && ports[f] == port {
        assert f in peers <==> f in Elements(peers);
      }
      forall f | f in peers ensures (exists i :: Says(db, i, f)) || (f in old(ports) && !Forgotten(db, f)) {
        KnownExactlyWhen(old(ports), db, fqdn, port, ports, f);
      }
    }

    /** The choice in AutoConfigureCorosyncStep.run of the host that gets the cluster
        command.  It fails if the first peer is not among the managed hosts. */
    method ChooseActioningHost(db: seq<Record>, fqdn: string, port: nat, states: map<string, string>)
      returns (host: Option<string>)
      modifies this
      ensures Remembers(old(ports), db, fqdn, port, ports)
      ensures var peers := PeersIn(ports, fqdn, port);
              match host
              case None => exists p :: p in peers && p !in states
              case Some(h) => (h == fqdn && (peers == {} || HasUnusable(peers, states)))
                              || (h in peers && h in states && Usable(states[h]))
      ensures host.Some? && host.value != fqdn ==>
                && host.value in ports && ports[host.value] == port && host.value in states
                && (states[host.value] == "managed" || states[host.value] == "packages_installed")
      ensures host == Some(fqdn) ==>
                || (forall f | f in ports && ports[f] == port :: f == fqdn)
                || (exists f :: && f in ports && ports[f] == port && f != fqdn && f in states
                                && states[f] != "managed" && states[f] != "packages_installed")
    {
      var peers := CorosyncPeers(db, fqdn, port);
      if peers == [] {
        return Some(fqdn);
      }
      assert peers[0] in Elements(peers);
      if peers[0] !in states {
        return None;
      }
      return Some(if Usable(states[peers[0]]) then peers[0] else fqdn);
    }
  }

  lemma NamesOfMore(db: seq<Record>, i: nat)
    requires i < |db|
    ensures forall d: bool ::
            Names(db[..i + 1], d) == Names(db[..i], d) + if db[i].deleted == d then {db[i].fqdn} else {}
  {
    forall d: bool
      ensures Names(db[..i + 1], d) == Names(db[..i], d) + if db[i].deleted == d then {db[i].fqdn} else {}
    {
      assert db[..i + 1][i] == db[i];
      assert forall k | 0 <= k < i :: db[..i + 1][k] == db[..i][k];
    }
  }

  /** A dictionary lists its entries in some order. */
  method Matching(names: set<string>) returns (listed: seq<string>)
    ensures NoDuplicates(listed) && Elements(listed) == names
  {
    listed := [];
    var todo := names;
    while todo != {}
      invariant NoDuplicates(listed) && todo !! Elements(listed) && todo + Elements(listed) == names
      decreases todo
    {
      var f :| f in todo;
      assert Elements(listed + [f]) == Elements(listed) + {f};
      assert f !in Elements(listed);
      listed, todo := listed + [f], todo - {f};
    }
  }

  // ---- Runs ----

  /** One automatic configuration: the host, its port, the database at that time, the
      peer listed first, whether that peer's host is in a usable state, and whether
      the agent carried both stages out. */
  datatype Config = Config(fqdn: string, port: nat, db: seq<Record>, first: string, usable: bool, ok: bool)

  /** Configuration `i` turns dictionary `i` into dictionary `i + 1`. */
  ghost predicate Runs(configs: seq<Config>, dicts: seq<map<string, nat>>, i: nat)
    requires i < |configs| && |dicts| == |configs| + 1
  {
    && Remembers(dicts[i], configs[i].db, configs[i].fqdn, configs[i].port, dicts[i + 1])
    && (Peers(configs, dicts, i) != {} ==> configs[i].first in Peers(configs, dicts, i))
  }

  ghost predicate Run(configs: seq<Config>, dicts: seq<map<string, nat>>) {
    |dicts| == |configs| + 1 && forall i | 0 <= i < |configs| :: Runs(configs, dicts, i)
  }

  function Peers(configs: seq<Config>, dicts: seq<map<string, nat>>, i: nat): set<string>
    requires i < |configs| && |dicts| == |configs| + 1
  {
    PeersIn(dicts[i + 1], configs[i].fqdn, configs[i].port)
  }

  /** The host the cluster command is given to. */
  function ActioningHost(configs: seq<Config>, dicts: seq<map<string, nat>>, i: nat): string
    requires i < |configs| && |dicts| == |configs| + 1
  {
    if Peers(configs, dicts, i) != {} && configs[i].usable then configs[i].first else configs[i].fqdn
  }

  predicate Creates(configs: seq<Config>, dicts: seq<map<string, nat>>, i: nat)
    requires i < |configs| && |dicts| == |configs| + 1
  {
    ActioningHost(configs, dicts, i) == configs[i].fqdn
  }

  /** The hosts known before configuration `i`: those known at the start and those that
      have reported since. */
  function History(known: map<string, nat>, configs: seq<Config>, i: nat): map<string, nat>
    requires i <= |configs|
  {
    if i == 0 then known else History(known, configs, i - 1)[configs[i - 1].fqdn := configs[i - 1].port]
  }

  /** Hosts are configured for the first time, none is deleted, and what the database
      and the dictionary say is what the hosts reported. */
  ghost predicate FirstTime(known: map<string, nat>, configs: seq<Config>, dicts: seq<map<string, nat>>) {
    && |dicts| == |configs| + 1
    && (forall f | f in dicts[0] :: f in known && dicts[0][f] == known[f])
    && (forall i | 0 <= i < |configs| :: IsNew(known, configs, i))
    && (forall i {:trigger IsNew(known, configs, i)} | 0 <= i < |configs| ::
          DbAgrees(History(known, configs, i), dicts[i], configs[i].db))
  }

  predicate IsNew(known: map<string, nat>, configs: seq<Config>, i: nat)
    requires i < |configs|
  {
    configs[i].fqdn !in History(known, configs, i)
  }

  ghost predicate DbAgrees(history: map<string, nat>, dict: map<string, nat>, db: seq<Record>) {
    && Names(db, true) == {}
    && (forall f | DbPort(db, f).Some? :: f in history && DbPort(db, f) == Some(history[f]))
    && (forall f | f in history && f !in dict :: DbPort(db, f).Some?)
  }

  lemma {:induction false} DictionaryIsHistory(known: map<string, nat>, configs: seq<Config>,
                                               dicts: seq<map<string, nat>>, i: nat)
    requires Run(configs, dicts) && FirstTime(known, configs, dicts) && i <= |configs|
    ensures forall f | f in dicts[i] :: f in History(known, configs, i) && dicts[i][f] == History(known, configs, i)[f]
    ensures i > 0 ==> dicts[i] == History(known, configs, i)
  {
    if i == 0 {
    } else {
      DictionaryIsHistory(known, configs, dicts, i - 1);
      var c := configs[i - 1];
      var before := History(known, configs, i - 1);
      assert Runs(configs, dicts, i - 1) && IsNew(known, configs, i - 1);
      assert DbAgrees(before, dicts[i - 1], c.db);
      var after := History(known, configs, i);
      forall f
        ensures f in dicts[i] <==> f in after
        ensures f in dicts[i] ==> f in after && dicts[i][f] == after[f]
      {
        assert PortIn(dicts[i], f) == if f == c.fqdn then Some(c.port) else KnownPort(dicts[i - 1], c.db, f);
      }
    }
  }

  /** The peers are exactly the other known hosts on the port, whoever is asked to add
      the host is one of them, and the cluster is created by the host itself exactly if
      there is none or the first one listed is not usable. */
  lemma PeersAreTheHostsOnThePort(known: map<string, nat>, configs: seq<Config>, dicts: seq<map<string, nat>>, i: nat)
    requires Run(configs, dicts) && FirstTime(known, configs, dicts) && i < |configs|
    ensures var history := History(known, configs, i);
            && Peers(configs, dicts, i) == (set f | f in history && history[f] == configs[i].port)
            && (Creates(configs, dicts, i) <==>
                  (forall f | f in history :: history[f] != configs[i].port) || !configs[i].usable)
            && (!Creates(configs, dicts, i) ==>
                  var h := ActioningHost(configs, dicts, i); h in history && history[h] == configs[i].port)
  {
    DictionaryIsHistory(known, configs, dicts, i + 1);
    assert Runs(configs, dicts, i) && IsNew(known, configs, i);
    var history := History(known, configs, i);
    var peers := Peers(configs, dicts, i);
    assert peers == set f | f in history && history[f] == configs[i].port;
    if peers == {} {
      forall f | f in history ensures history[f] != configs[i].port {
        assert f !in peers;
      }
    } else {
      assert configs[i].first in peers;
    }
  }

  lemma {:induction false} EarlierHostIsKnown(known: map<string, nat>, configs: seq<Config>, i: nat, j: nat)
    requires i < j <= |configs|
    requires forall k | 0 <= k < |configs| :: IsNew(known, configs, k)
    ensures configs[i].fqdn in History(known, configs, j) &&
            History(known, configs, j)[configs[i].fqdn] == configs[i].port
    decreases j
  {
    if j > i + 1 {
      EarlierHostIsKnown(known, configs, i, j - 1);
      assert IsNew(known, configs, j - 1);
    }
  }

  /** No port is given two clusters, exactly if every configuration that finds peers
      finds the first of them usable.  The start is a system without hosts. */
  lemma OneClusterPerPortExactlyWhen(configs: seq<Config>, dicts: seq<map<string, nat>>)
    requires Run(configs, dicts) && FirstTime(map[], configs, dicts)
    ensures (forall i, j | 0 <= i < j < |configs| && configs[i].port == configs[j].port
                :: !(Creates(configs, dicts, i) && Creates(configs, dicts, j)))
            <==> (forall i | 0 <= i < |configs| :: Peers(configs, dicts, i) != {} ==> configs[i].usable)
  {
    if forall i | 0 <= i < |configs| :: Peers(configs, dicts, i) != {} ==> configs[i].usable {
      forall i, j | 0 <= i < j < |configs| && configs[i].port == configs[j].port
        ensures !Creates(configs, dicts, j)
      {
        LaterHostFindsPeers(map[], configs, dicts, i, j);
      }
    } else {
      var j :| 0 <= j < |configs| && Peers(configs, dicts, j) != {} && !configs[j].usable;
      PeersAreTheHostsOnThePort(map[], configs, dicts, j);
      var f :| f in Peers(configs, dicts, j);
      var i := FirstOnPort(configs, j, f);
      PeersAreTheHostsOnThePort(map[], configs, dicts, i);
      assert Creates(configs, dicts, i) && Creates(configs, dicts, j);
    }
  }

  lemma LaterHostFindsPeers(known: map<string, nat>, configs: seq<Config>, dicts: seq<map<string, nat>>, i: nat, j: nat)
    requires Run(configs, dicts) && FirstTime(known, configs, dicts)
    requires i < j < |configs| && configs[i].port == configs[j].port
    ensures configs[i].fqdn in Peers(configs, dicts, j)
    ensures configs[j].usable ==> !Creates(configs, dicts, j)
  {
    EarlierHostIsKnown(known, configs, i, j);
    PeersAreTheHostsOnThePort(known, configs, dicts, j);
  }

  /** The first configuration that reported the port of a host known before `j`. */
  lemma {:induction false} FirstOnPort(configs: seq<Config>, j: nat, f: string) returns (i: nat)
    requires j < |configs| && f in History(map[], configs, j) && History(map[], configs, j)[f] == configs[j].port
    ensures i < j && configs[i].port == configs[j].port
    ensures forall g | g in History(map[], configs, i) :: History(map[], configs, i)[g] != configs[j].port
  {
    var k: nat := j;
    while exists g :: g in History(map[], configs, k) && History(map[], configs, k)[g] == configs[j].port
      invariant k <= j
      invariant k < j ==> configs[k].port == configs[j].port
      decreases k
    {
      var g :| g in History(map[], configs, k) && History(map[], configs, k)[g] == configs[j].port;
      k := Reporter(configs, k, g);
    }
    i := k;
  }

  lemma {:induction false} Reporter(configs: seq<Config>, k: nat, g: string) returns (i: nat)
    requires k <= |configs| && g in History(map[], configs, k)
    ensures i < k && configs[i].fqdn == g && configs[i].port == History(map[], configs, k)[g]
  {
    if configs[k - 1].fqdn == g {
      i := k - 1;
    } else {
      i := Reporter(configs, k - 1, g);
    }
  }

  // ---- Configurations that fail ----

  /** The hosts whose configuration was carried out. */
  function Members(configs: seq<Config>, i: nat): set<string>
    requires i <= |configs|
  {
    set k | 0 <= k < i && configs[k].ok :: configs[k].fqdn
  }

  /** Whichever peer is listed first, the host is added through one that has joined,
      exactly if every earlier configuration on the port succeeded. */
  lemma AddedThroughAMemberExactlyWhen(configs: seq<Config>, dicts: seq<map<string, nat>>, i: nat)
    requires Run(configs, dicts) && FirstTime(map[], configs, dicts) && i < |configs|
    ensures Peers(configs, dicts, i) <= Members(configs, i)
            <==> forall k | 0 <= k < i && configs[k].port == configs[i].port :: configs[k].ok
  {
    PeersAreTheHostsOnThePort(map[], configs, dicts, i);
    if forall k | 0 <= k < i && configs[k].port == configs[i].port :: configs[k].ok {
      forall f | f in Peers(configs, dicts, i) ensures f in Members(configs, i) {
        var k := Reporter(configs, i, f);
      }
    }
    if Peers(configs, dicts, i) <= Members(configs, i) {
      forall k | 0 <= k < i && configs[k].port == configs[i].port ensures configs[k].ok {
        LaterHostFindsPeers(map[], configs, dicts, k, i);
        assert configs[k].fqdn in Members(configs, i);
        var m :| 0 <= m < i && configs[m].ok && configs[m].fqdn == configs[k].fqdn;
        HostsDiffer(configs, m, k);
      }
    }
  }

  lemma HostsDiffer(configs: seq<Config>, m: nat, k: nat)
    requires m < |configs| && k < |configs| && configs[m].fqdn == configs[k].fqdn
    requires forall i | 0 <= i < |configs| :: IsNew(map[], configs, i)
    ensures m == k
  {
    assert IsNew(map[], configs, m) && IsNew(map[], configs, k);
    if m < k {
      EarlierHostIsKnown(map[], configs, m, k);
    } else if k < m {
      EarlierHostIsKnown(map[], configs, k, m);
    }
  }

  // ---- Two hosts on one port ----

  function TwoHosts(usable: bool, ok: bool): seq<Config> {
    [Config("a", 1, [], "", true, ok), Config("b", 1, [], "a", usable, true)]
  }

  const TWO_DICTS: seq<map<string, nat>> := [map[], map["a" := 1], map["a" := 1, "b" := 1]]

  lemma TwoHostsRun(usable: bool, ok: bool)
    ensures Run(TwoHosts(usable, ok), TWO_DICTS) && FirstTime(map[], TwoHosts(usable, ok), TWO_DICTS)
    ensures Peers(TwoHosts(usable, ok), TWO_DICTS, 0) == {} && Peers(TwoHosts(usable, ok), TWO_DICTS, 1) == {"a"}
  {
    var configs := TwoHosts(usable, ok);
    assert Names([], true) == {} && Names([], false) == {};
    assert Peers(configs, TWO_DICTS, 0) == {} && Peers(configs, TWO_DICTS, 1) == {"a"};
    assert Runs(configs, TWO_DICTS, 0) && Runs(configs, TWO_DICTS, 1);
    assert History(map[], configs, 0) == map[] && History(map[], configs, 1) == map["a" := 1];
    assert IsNew(map[], configs, 0) && IsNew(map[], configs, 1);
    assert DbAgrees(map[], TWO_DICTS[0], []) && DbAgrees(map["a" := 1], TWO_DICTS[1], []);
  }

  /** The first host is in another state when the second one comes: both create a cluster
      on the port. */
  lemma UnusablePeerMakesTwoClusters()
    ensures var configs := TwoHosts(false, true);
            && Run(configs, TWO_DICTS) && FirstTime(map[], configs, TWO_DICTS) && configs[0].port == configs[1].port
            && Creates(configs, TWO_DICTS, 0) && Creates(configs, TWO_DICTS, 1)
  {
    TwoHostsRun(false, true);
  }

  /** The first host's configuration fails after its port was remembered: the second is
      added through a host that has not joined. */
  lemma FailedPeerIsAskedToAdd()
    ensures var configs := TwoHosts(true, false);
            && Run(configs, TWO_DICTS) && FirstTime(map[], configs, TWO_DICTS)
            && !Creates(configs, TWO_DICTS, 1)
            && ActioningHost(configs, TWO_DICTS, 1) == "a" && "a" !in Members(configs, 1)
  {
    TwoHostsRun(true, false);
  }
}
