/** The manager's side of the agent message protocol for one host: POSTs bring
    messages in and queue answers, GETs drain the TX queue. */
module AgentMessages {
  import opened Basics

  type Plugin = Option<string>
  type Sessions = map<Plugin, nat>

  datatype TxType = TerminateAll | Terminate | CreateResponse | TxData

  datatype Message =
    | Barrier(startTime: string)
    | Tx(typ: TxType, plugin: Plugin, session: Option<nat>, body: string)

  const TERMINATE_ALL := Tx(TerminateAll, None, None, "")

  datatype RxType = RxData | CreateRequest | OtherRx

  datatype Incoming = Incoming(fqdn: string, typ: RxType, plugin: Plugin, session: Option<nat>, body: string)

  /** What is passed on to the manager's services. */
  datatype Upstream =
    | Forwarded(message: Incoming)
    | SessionStarted(plugin: Plugin, session: nat)
    | SessionEnded(plugin: Plugin, session: nat)

  // ---- The session filter ----

  function Current(sessions: Sessions, plugin: Plugin): Option<nat> {
    if plugin in sessions then Some(sessions[plugin]) else None
  }

  predicate IsCurrent(sessions: Sessions, m: Message) {
    m.Tx? && m.session == Current(sessions, m.plugin)
  }

  /** Keep the messages that belong to the plugin's current session. */
  function OnlyCurrent(sessions: Sessions, ms: seq<Message>): seq<Message> {
    if ms == [] then []
    else
      var last := ms[|ms| - 1];
      OnlyCurrent(sessions, ms[..|ms| - 1]) + if IsCurrent(sessions, last) then [last] else []
  }

  /** _filter_valid_messages: look every plugin up once and remember the answer. */
  method FilterValidMessages(sessions: Sessions, messages: seq<Message>) returns (valid: seq<Message>)
    requires forall m | m in messages :: m.Tx?
    ensures valid == OnlyCurrent(sessions, messages)
  {
    valid := [];
    var pluginToSession: map<Plugin, Option<nat>> := map[];
    for i := 0 to |messages|
      invariant valid == OnlyCurrent(sessions, messages[..i])
      invariant forall p | p in pluginToSession :: pluginToSession[p] == Current(sessions, p)
    {
      var m := messages[i];
      assert m in messages;
      if m.plugin !in pluginToSession {
        var session := if m.plugin in sessions then Some(sessions[m.plugin]) else None;
        pluginToSession := pluginToSession[m.plugin := session];
      }
      assert messages[..i + 1][..|messages[..i + 1]| - 1] == messages[..i];
      if m.session == pluginToSession[m.plugin] {
        valid := valid + [m];
      }
    }
    assert messages[..|messages|] == messages;
  }

  /** A termination notice survives exactly when its plugin has no session, a create
      response only while its session is the current one. */
  lemma {:induction false} WhatSurvivesTheFilter(sessions: Sessions, ms: seq<Message>, m: Message)
    ensures m in OnlyCurrent(sessions, ms) <==> m in ms && IsCurrent(sessions, m)
    ensures m.Tx? && m.session.None? ==> (m in OnlyCurrent(sessions, ms) <==> m in ms && m.plugin !in sessions)
    ensures m.Tx? && m.session.Some? ==>
              (m in OnlyCurrent(sessions, ms) <==>
               m in ms && m.plugin in sessions && sessions[m.plugin] == m.session.value)
  {
    if ms == [] {
    } else {
      WhatSurvivesTheFilter(sessions, ms[..|ms| - 1], m);
      assert m in ms <==> m in ms[..|ms| - 1] || m == ms[|ms| - 1];
    }
  }

  /** The filter keeps the order: it works on each piece of the list by itself, down to
      single messages. */
  lemma {:induction false} FilterSplits(sessions: Sessions, a: seq<Message>, b: seq<Message>)
    ensures OnlyCurrent(sessions, a + b) == OnlyCurrent(sessions, a) + OnlyCurrent(sessions, b)
  {
    if b == [] {
      assert a + b == a;
    } else {
      assert (a + b)[..|a + b| - 1] == a + b[..|b| - 1];
      FilterSplits(sessions, a, b[..|b| - 1]);
    }
  }

  lemma FilterOne(sessions: Sessions, m: Message)
    ensures OnlyCurrent(sessions, [m]) ==
            if m.Tx? && m.session == (if m.plugin in sessions then Some(sessions[m.plugin]) else None) then [m] else []
  {
    assert [m][..0] == [];
  }

  // ---- Draining ----

  function WithoutBarriers(ms: seq<Message>): seq<Message> {
    if ms == [] then []
    else WithoutBarriers(ms[..|ms| - 1]) + if ms[|ms| - 1].Barrier? then [] else [ms[|ms| - 1]]
  }

  lemma {:induction false} WithoutBarriersFacts(ms: seq<Message>, m: Message)
    ensures m in WithoutBarriers(ms) <==> m in ms && !m.Barrier?
  {
    if ms == [] {
    } else {
      WithoutBarriersFacts(ms[..|ms| - 1], m);
      assert m in ms <==> m in ms[..|ms| - 1] || m == ms[|ms| - 1];
    }
  }

  /** Leaving the barriers out keeps the order, too. */
  lemma {:induction false} WithoutBarriersSplits(a: seq<Message>, b: seq<Message>)
    ensures WithoutBarriers(a + b) == WithoutBarriers(a) + WithoutBarriers(b)
    ensures |b| == 1 ==> WithoutBarriers(b) == if b[0].Barrier? then [] else b
  {
    if b == [] {
      assert a + b == a;
    } else {
      assert (a + b)[..|a + b| - 1] == a + b[..|b| - 1];
      WithoutBarriersSplits(a, b[..|b| - 1]);
    }
  }

  lemma DrainOneMore(ms: seq<Message>, i: nat)
    requires i < |ms|
    ensures ms[i..][1..] == ms[i + 1..] && ms[i..][0] == ms[i]
    ensures WithoutBarriers(ms[..i + 1]) == WithoutBarriers(ms[..i]) + if ms[i].Barrier? then [] else [ms[i]]
  {
    assert ms[..i + 1][..|ms[..i + 1]| - 1] == ms[..i];
  }

  predicate Foreign(m: Message, startTime: string) {
    m.Barrier? && m.startTime != startTime
  }

  /** How many messages come before the first barrier of another agent run. */
  function BeforeForeign(ms: seq<Message>, startTime: string): (n: nat)
    ensures n <= |ms|
    ensures forall i | 0 <= i < n :: !Foreign(ms[i], startTime)
    ensures n < |ms| ==> Foreign(ms[n], startTime)
  {
    if ms == [] then 0
    else if Foreign(ms[0], startTime) then 0
    else 1 + BeforeForeign(ms[1..], startTime)
  }

  function Preamble(resetRequired: bool): seq<Message> {
    if resetRequired then [TERMINATE_ALL] else []
  }

  // ---- One host ----

  datatype Link = Link(sessions: Sessions, tx: seq<Message>, rx: seq<Upstream>, nextSession: nat)

  predicate Known(sessions: Sessions, plugin: Plugin, session: Option<nat>) {
    plugin in sessions && (session.None? || sessions[plugin] == session.value)
  }

  /** SessionCollection.create */
  function CreateSession(l: Link, plugin: Plugin): Link {
    var ended := if plugin in l.sessions then [SessionEnded(plugin, l.sessions[plugin])] else [];
    l.(sessions := l.sessions[plugin := l.nextSession], nextSession := l.nextSession + 1,
       rx := l.rx + ended + [SessionStarted(plugin, l.nextSession)])
  }

  function HandleOne(l: Link, m: Incoming, startTime: string): Link {
    match m.typ
    case RxData =>
      if Known(l.sessions, m.plugin, m.session) then l.(rx := l.rx + [Forwarded(m)])
      else l.(tx := l.tx + [Notice(m.plugin)])
    case CreateRequest =>
      var created := CreateSession(l, m.plugin);
      created.(tx := l.tx + [Barrier(startTime), Tx(CreateResponse, m.plugin, Some(l.nextSession), "")])
    case OtherRx => l
  }

  function Handle(l: Link, ms: seq<Incoming>, startTime: string): Link {
    if ms == [] then l else HandleOne(Handle(l, ms[..|ms| - 1], startTime), ms[|ms| - 1], startTime)
  }

  function Notice(plugin: Plugin): Message {
    Tx(Terminate, plugin, None, "")
  }

  /** reset_session, and reset_plugin_sessions as far as this host goes: only the agent
      is told. */
  function ResetSession(l: Link, plugin: Plugin): Link {
    if plugin in l.sessions then l.(sessions := l.sessions - {plugin}, tx := l.tx + [Notice(plugin)]) else l
  }

  function Ends(sessions: Sessions, order: seq<Plugin>): seq<Upstream>
    requires Elements(order) <= sessions.Keys
  {
    seq(|order|, i requires 0 <= i < |order| =>
      assert order[i] in Elements(order);
      SessionEnded(order[i], sessions[order[i]]))
  }

  function Notices(order: seq<Plugin>): seq<Message> {
    seq(|order|, i requires 0 <= i < |order| => Notice(order[i]))
  }

  /** reset_fqdn_sessions: the services are told of all sessions, then the agent. */
  function ResetHost(l: Link, order: seq<Plugin>): Link {
    if Elements(order) <= l.sessions.Keys
    then l.(sessions := l.sessions - Elements(order), rx := l.rx + Ends(l.sessions, order), tx := l.tx + Notices(order))
    else l
  }

  class HostLink {
    const fqdn: string
    var sessions: Sessions
    var tx: seq<Message>
    var rx: seq<Upstream>
    var nextSession: nat

    function Value(): Link
      reads this
    {
      Link(sessions, tx, rx, nextSession)
    }

    constructor (fqdn: string)
      ensures this.fqdn == fqdn && Value() == Link(map[], [], [], 0)
    {
      this.fqdn, sessions, tx, rx, nextSession := fqdn, map[], [], [], 0;
    }

    /** MessageView.post: a message in another host's name refuses them all. */
    method Post(messages: seq<Incoming>, startTime: string) returns (ok: bool)
      modifies this
      ensures ok <==> forall m | m in messages :: m.fqdn == fqdn
      ensures Value() == if ok then Handle(old(Value()), messages, startTime) else old(Value())
    {
      for i := 0 to |messages|
        invariant forall m | m in messages[..i] :: m.fqdn == fqdn
        invariant Value() == old(Value())
      {
        if messages[i].fqdn != fqdn {
          assert messages[i] in messages;
          return false;
        }
        assert messages[..i + 1] == messages[..i] + [messages[i]];
      }
      assert messages[..|messages|] == messages;
      for i := 0 to |messages|
        invariant Value() == Handle(old(Value()), messages[..i], startTime)
      {
        PostOne(messages[i], startTime);
        assert messages[..i + 1][..|messages[..i + 1]| - 1] == messages[..i];
      }
      return true;
    }

    method PostOne(m: Incoming, startTime: string)
      modifies this
      ensures Value() == HandleOne(old(Value()), m, startTime)
    {
      if m.typ == RxData {
        if Known(sessions, m.plugin, m.session) {
          rx := rx + [Forwarded(m)];
        } else {
          tx := tx + [Notice(m.plugin)];
        }
      } else if m.typ == CreateRequest {
        if m.plugin in sessions {
          rx := rx + [SessionEnded(m.plugin, sessions[m.plugin])];
        }
        var session := nextSession;
        nextSession := nextSession + 1;
        sessions := sessions[m.plugin := session];
        rx := rx + [SessionStarted(m.plugin, session)];
        tx := tx + [Barrier(startTime)];
        tx := tx + [Tx(CreateResponse, m.plugin, Some(session), "")];
      }
    }

    /** SessionCollection.reset_session */
    method Reset(plugin: Plugin)
      modifies this
      ensures Value() == ResetSession(old(Value()), plugin)
    {
      if plugin in sessions {
        sessions := sessions - {plugin};
        tx := tx + [Notice(plugin)];
      }
    }

    /** SessionCollection.reset_fqdn_sessions; the table lists its plugins in any order. */
    method ResetAll() returns (order: seq<Plugin>)
      modifies this
      ensures NoDuplicates(order) && Elements(order) == old(sessions).Keys
      ensures Value() == ResetHost(old(Value()), order)
    {
      order := [];
      var todo := sessions.Keys;
      while todo != {}
        invariant sessions == old(sessions) && tx == old(tx) && nextSession == old(nextSession)
        invariant NoDuplicates(order) && todo + Elements(order) == old(sessions).Keys && todo !! Elements(order)
        invariant rx == old(rx) + Ends(old(sessions), order)
        decreases todo
      {
        var plugin :| plugin in todo;
        assert Elements(order + [plugin]) == Elements(order) + {plugin} && plugin !in Elements(order);
        rx := rx + [SessionEnded(plugin, sessions[plugin])];
        assert Ends(old(sessions), order + [plugin]) ==
          Ends(old(sessions), order) + [SessionEnded(plugin, sessions[plugin])];
        order, todo := order + [plugin], todo - {plugin};
      }
      RemoveKeys(order);
    }

    method RemoveKeys(order: seq<Plugin>)
      requires NoDuplicates(order) && Elements(order) <= sessions.Keys
      modifies this`sessions, this`tx
      ensures sessions == old(sessions) - Elements(order) && tx == old(tx) + Notices(order)
    {
      assert sessions - Elements(order[..0]) == sessions;
      for i := 0 to |order|
        invariant sessions == old(sessions) - Elements(order[..i]) && tx == old(tx) + Notices(order[..i])
      {
        assert order[..i + 1] == order[..i] + [order[i]];
        assert Elements(order[..i + 1]) == Elements(order[..i]) + {order[i]};
        assert Notices(order[..i + 1]) == Notices(order[..i]) + [Notice(order[i])];
        assert order[i] in Elements(order) && order[i] !in Elements(order[..i]);
        sessions := sessions - {order[i]};
        tx := tx + [Notice(order[i])];
      }
      assert order[..|order|] == order;
    }

    /** Take messages off the queue until it is empty or a foreign barrier turns up. */
    method Drain(startTime: string) returns (cancelled: bool, messages: seq<Message>)
      modifies this`tx
      ensures cancelled <==> BeforeForeign(old(tx), startTime) < |old(tx)|
      ensures cancelled ==> tx == old(tx)[BeforeForeign(old(tx), startTime) + 1..]
      ensures !cancelled ==> tx == [] && messages == WithoutBarriers(old(tx))
    {
      cancelled, messages := false, [];
      ghost var i := 0;
      while tx != []
        invariant i <= BeforeForeign(old(tx), startTime) && tx == old(tx)[i..]
        invariant messages == WithoutBarriers(old(tx)[..i])
        decreases |tx|
      {
        var message := tx[0];
        tx := tx[1..];
        DrainOneMore(old(tx), i);
        if message.Barrier? {
          if message.startTime != startTime {
            return true, [];
          }
        } else {
          messages := messages + [message];
        }
        i := i + 1;
      }
      assert old(tx)[..|old(tx)|] == old(tx);
    }

    /** MessageView.get while nothing else touches the queue: a foreign barrier ends
        it empty-handed and leaves what lies behind queued; otherwise it takes all. */
    method Get(startTime: string, resetRequired: bool) returns (response: seq<Message>)
      modifies this`tx
      ensures var n := BeforeForeign(old(tx), startTime);
              if n < |old(tx)| then response == [] && tx == old(tx)[n + 1..]
              else tx == [] && response == OnlyCurrent(sessions, Preamble(resetRequired) + WithoutBarriers(old(tx)))
      // A foreign barrier gives nothing; otherwise the messages of current sessions are answered.
      ensures (exists m :: m in old(tx) && m.Barrier? && m.startTime != startTime) ==> response == []
      ensures (forall m | m in old(tx) && m.Barrier? :: m.startTime == startTime) ==>
                && (forall m :: m in response <==>
                      && m.Tx? && m.session == (if m.plugin in sessions then Some(sessions[m.plugin]) else None)
                      && (m in old(tx) || (resetRequired && m == Tx(TerminateAll, None, None, ""))))
                && (resetRequired && None !in sessions ==>
                      response != [] && response[0] == Tx(TerminateAll, None, None, ""))
    {
      ghost var before := tx;
      assert (exists m :: m in before && Foreign(m, startTime)) <==> BeforeForeign(before, startTime) < |before|;
      var cancelled, messages := Drain(startTime);
      if cancelled {
        return [];
      }
      forall m | m in messages ensures m.Tx? {
        WithoutBarriersFacts(old(tx), m);
      }
      response := FilterValidMessages(sessions, Preamble(resetRequired) + messages);
      forall m ensures m in response <==> IsCurrent(sessions, m) && (m in before || m in Preamble(resetRequired)) {
        WhatSurvivesTheFilter(sessions, Preamble(resetRequired) + messages, m);
        WithoutBarriersFacts(before, m);
      }
      FilterSplits(sessions, Preamble(resetRequired), messages);
      if resetRequired {
        FilterOne(sessions, Tx(TerminateAll, None, None, ""));
      }
    }
  }

  // ---- Which sessions are reported as ended ----

  /** What happens to the sessions of a host, one thing at a time; a POST is received
      message by message. */
  datatype Event =
    | Received(message: Incoming, startTime: string)
    | SessionReset(plugin: Plugin)
    | HostReset(order: seq<Plugin>)

  ghost predicate Possible(l: Link, e: Event) {
    e.HostReset? ==> Elements(e.order) == l.sessions.Keys
  }

  function Next(l: Link, e: Event): Link {
    match e
    case Received(m, startTime) => HandleOne(l, m, startTime)
    case SessionReset(plugin) => ResetSession(l, plugin)
    case HostReset(order) => ResetHost(l, order)
  }

  const NEW_LINK := Link(map[], [], [], 0)

  ghost predicate History(links: seq<Link>, events: seq<Event>) {
    && |links| == |events| + 1 && links[0] == NEW_LINK
    && forall k {:trigger Possible(links[k], events[k])} | 0 <= k < |events| ::
         Possible(links[k], events[k]) && links[k + 1] == Next(links[k], events[k])
  }

  /** The sessions that a reset of one plugin took away in the first `k` events. */
  ghost function Dropped(links: seq<Link>, events: seq<Event>, k: nat): set<(Plugin, nat)>
    requires k <= |events| < |links|
  {
    if k == 0 then {} else Dropped(links, events, k - 1) + DroppedBy(links[k - 1], events[k - 1])
  }

  ghost function DroppedBy(l: Link, e: Event): set<(Plugin, nat)> {
    if e.SessionReset? && e.plugin in l.sessions then {(e.plugin, l.sessions[e.plugin])} else {}
  }

  /** A session that was started is the plugin's current one, or was reported as ended, or
      was dropped: exactly one of these.  Numbers are never used again. */
  ghost predicate SessionsOk(l: Link, dropped: set<(Plugin, nat)>) {
    && (forall p | p in l.sessions :: SessionStarted(p, l.sessions[p]) in l.rx)
    && (forall p, n: nat | SessionStarted(p, n) in l.rx :: n < l.nextSession && Accounted(l, dropped, p, n))
    && (forall p, n: nat | SessionEnded(p, n) in l.rx :: SessionStarted(p, n) in l.rx)
    && (forall d | d in dropped :: SessionStarted(d.0, d.1) in l.rx)
  }

  ghost predicate Accounted(l: Link, dropped: set<(Plugin, nat)>, p: Plugin, n: nat) {
    var current, ended, gone := Current(l.sessions, p) == Some(n), SessionEnded(p, n) in l.rx, (p, n) in dropped;
    (current || ended || gone) && !(current && ended) && !(current && gone) && !(ended && gone)
  }

  lemma CreateKeepsSessions(l: Link, dropped: set<(Plugin, nat)>, plugin: Plugin)
    requires SessionsOk(l, dropped)
    ensures SessionsOk(CreateSession(l, plugin), dropped)
  {
    var t := CreateSession(l, plugin);
    var started := SessionStarted(plugin, l.nextSession);
    var ended := if plugin in l.sessions then [SessionEnded(plugin, l.sessions[plugin])] else [];
    assert forall u :: u in t.rx <==> u in l.rx || u in ended || u == started;
    forall p, n: nat | SessionStarted(p, n) in t.rx ensures n < t.nextSession && Accounted(t, dropped, p, n) {
      if SessionStarted(p, n) in l.rx {
        assert Accounted(l, dropped, p, n);
      }
    }
  }

  lemma HandleOneKeepsSessions(l: Link, dropped: set<(Plugin, nat)>, m: Incoming, startTime: string)
    requires SessionsOk(l, dropped)
    ensures SessionsOk(HandleOne(l, m, startTime), dropped)
  {
    var t := HandleOne(l, m, startTime);
    if m.typ == CreateRequest {
      CreateKeepsSessions(l, dropped, m.plugin);
      SameSessions(CreateSession(l, m.plugin), t, dropped);
    } else {
      SameSessions(l, t, dropped);
    }
  }

  lemma SameSessions(l: Link, t: Link, dropped: set<(Plugin, nat)>)
    requires SessionsOk(l, dropped) && t.sessions == l.sessions && t.nextSession == l.nextSession
    requires forall u: Upstream | !u.Forwarded? :: u in t.rx <==> u in l.rx
    ensures SessionsOk(t, dropped)
  {
    forall p, n: nat | SessionStarted(p, n) in t.rx ensures Accounted(t, dropped, p, n) {
      assert Accounted(l, dropped, p, n);
    }
  }

  lemma SessionResetKeeps(l: Link, dropped: set<(Plugin, nat)>, plugin: Plugin)
    requires SessionsOk(l, dropped)
    ensures SessionsOk(ResetSession(l, plugin), dropped + DroppedBy(l, SessionReset(plugin)))
  {
    var t := ResetSession(l, plugin);
    forall p, n: nat | SessionStarted(p, n) in t.rx
      ensures Accounted(t, dropped + DroppedBy(l, SessionReset(plugin)), p, n)
    {
      assert Accounted(l, dropped, p, n);
    }
  }

  lemma {:induction false} EndsAre(sessions: Sessions, order: seq<Plugin>, u: Upstream)
    requires Elements(order) <= sessions.Keys
    ensures u in Ends(sessions, order) <==> u.SessionEnded? && u.plugin in order && u.session == sessions[u.plugin]
  {
    if order == [] {
    } else {
      var front, last := order[..|order| - 1], order[|order| - 1];
      assert order == front + [last];
      assert Elements(front) <= Elements(order) && last in Elements(order);
      EndsAre(sessions, front, u);
      assert Ends(sessions, order) == Ends(sessions, front) + [SessionEnded(last, sessions[last])];
    }
  }

  lemma HostResetKeeps(l: Link, dropped: set<(Plugin, nat)>, order: seq<Plugin>)
    requires SessionsOk(l, dropped) && Elements(order) == l.sessions.Keys
    ensures SessionsOk(ResetHost(l, order), dropped)
  {
    var t := ResetHost(l, order);
    forall u: Upstream
      ensures u in t.rx <==> u in l.rx || (u.SessionEnded? && Current(l.sessions, u.plugin) == Some(u.session))
    {
      EndsAre(l.sessions, order, u);
      assert u.SessionEnded? ==> (u.plugin in order <==> u.plugin in Elements(order));
    }
    forall p, n: nat | SessionStarted(p, n) in t.rx ensures Accounted(t, dropped, p, n) {
      assert Accounted(l, dropped, p, n);
    }
  }

  lemma {:induction false} HistoryKeepsSessions(links: seq<Link>, events: seq<Event>, k: nat)
    requires History(links, events) && k <= |events|
    ensures SessionsOk(links[k], Dropped(links, events, k))
  {
    if k > 0 {
      HistoryKeepsSessions(links, events, k - 1);
      var l, e, d := links[k - 1], events[k - 1], Dropped(links, events, k - 1);
      assert Possible(links[k - 1], events[k - 1]);
      match e {
        case Received(m, startTime) => HandleOneKeepsSessions(l, d, m, startTime);
        case SessionReset(plugin) => SessionResetKeeps(l, d, plugin);
        case HostReset(order) => HostResetKeeps(l, d, order);
      }
      assert e.SessionReset? || d + DroppedBy(l, e) == d;
    }
  }

  /** A reset of the plugin took its session `n` away in the first `k` events. */
  ghost predicate WasReset(links: seq<Link>, events: seq<Event>, k: nat, p: Plugin, n: nat)
    requires k <= |events| < |links|
  {
    exists i :: 0 <= i < k && events[i] == SessionReset(p) && Current(links[i].sessions, p) == Some(n)
  }

  lemma {:induction false} DroppedIs(links: seq<Link>, events: seq<Event>, k: nat, p: Plugin, n: nat)
    requires k <= |events| < |links|
    ensures (p, n) in Dropped(links, events, k) <==>
            WasReset(links, events, k, p, n)
  {
    if k > 0 {
      DroppedIs(links, events, k - 1, p, n);
      if (p, n) in DroppedBy(links[k - 1], events[k - 1]) {
        assert events[k - 1] == SessionReset(p) && Current(links[k - 1].sessions, p) == Some(n);
      }
    }
  }

  /** Over any POSTs and resets, a session that was started has been reported upstream as
      ended exactly if it is not current and no reset of its plugin alone took it away. */
  lemma EndIsReportedExactlyWhen(links: seq<Link>, events: seq<Event>, p: Plugin, n: nat)
    requires History(links, events) && SessionStarted(p, n) in links[|events|].rx
    ensures SessionEnded(p, n) in links[|events|].rx <==>
            && Current(links[|events|].sessions, p) != Some(n)
            && !WasReset(links, events, |events|, p, n)
  {
    HistoryKeepsSessions(links, events, |events|);
    DroppedIs(links, events, |events|, p, n);
    assert Accounted(links[|events|], Dropped(links, events, |events|), p, n);
  }

  /** A session that its plugin's service resets is never reported as ended. */
  lemma ResetSessionIsNotReported(m: Incoming, created: Link, reset: Link)
    requires m.typ == CreateRequest && created == HandleOne(NEW_LINK, m, "") && reset == ResetSession(created, m.plugin)
    ensures History([NEW_LINK, created, reset], [Received(m, ""), SessionReset(m.plugin)])
    ensures SessionStarted(m.plugin, 0) in reset.rx && m.plugin !in reset.sessions &&
            SessionEnded(m.plugin, 0) !in reset.rx
  {
    var links, events := [NEW_LINK, created, reset], [Received(m, ""), SessionReset(m.plugin)];
    forall k | 0 <= k < |events| ensures Possible(links[k], events[k]) && links[k + 1] == Next(links[k], events[k]) {
      assert k == 0 || k == 1;
    }
  }

  function ReceivedAll(ms: seq<Incoming>, startTime: string): seq<Event> {
    seq(|ms|, i requires 0 <= i < |ms| => Received(ms[i], startTime))
  }

  /** A POST carries a history on, message by message. */
  lemma {:induction false} PostGoesOn(links: seq<Link>, events: seq<Event>, ms: seq<Incoming>, startTime: string)
    returns (more: seq<Link>)
    requires History(links, events)
    ensures History(more, events + ReceivedAll(ms, startTime))
    ensures more[|more| - 1] == Handle(links[|events|], ms, startTime)
  {
    if ms == [] {
      assert events + ReceivedAll([], startTime) == events;
      more := links;
    } else {
      var front, last := ms[..|ms| - 1], ms[|ms| - 1];
      var before := PostGoesOn(links, events, front, startTime);
      var es := events + ReceivedAll(front, startTime);
      more := before + [HandleOne(before[|es|], last, startTime)];
      var all := es + [Received(last, startTime)];
      forall k | 0 <= k < |all| ensures Possible(more[k], all[k]) && more[k + 1] == Next(more[k], all[k]) {
        assert k < |es| ==> Possible(before[k], es[k]);
      }
      assert all == events + ReceivedAll(ms, startTime);
    }
  }
}
