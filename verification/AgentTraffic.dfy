/** What passes through a host's link, told by the events alone: which session a plugin
    has, which messages are forwarded to the services and what is queued for the agent. */
module AgentTraffic {
  import opened Basics
  import opened AgentMessages

  predicate Creates(e: Event) {
    e.Received? && e.message.typ == CreateRequest
  }

  /** Sessions are numbered in the order of their requests. */
  function Created(events: seq<Event>): nat {
    if events == [] then 0
    else Created(events[..|events| - 1]) + if Creates(events[|events| - 1]) then 1 else 0
  }

  /** The session a plugin has after these events: that of its last create request, unless
      a reset came later. */
  function Open(events: seq<Event>, plugin: Plugin): Option<nat> {
    if events == [] then None
    else
      var before, last := events[..|events| - 1], events[|events| - 1];
      if Creates(last) && last.message.plugin == plugin then Some(Created(before))
      else if last.HostReset? || last == SessionReset(plugin) then None
      else Open(before, plugin)
  }

  /** `m` comes while its plugin has a session that it names or leaves open. */
  predicate InSession(before: seq<Event>, m: Incoming) {
    Open(before, m.plugin).Some? && (m.session.None? || m.session == Open(before, m.plugin))
  }

  /** What an event adds to the messages for the services. */
  function Upward(before: seq<Event>, e: Event): seq<Upstream> {
    match e
    case Received(m, startTime) =>
      if m.typ == RxData then
        if InSession(before, m) then [Forwarded(m)] else []
      else if m.typ == CreateRequest then
        (if Open(before, m.plugin).Some? then [SessionEnded(m.plugin, Open(before, m.plugin).value)] else []) +
        [SessionStarted(m.plugin, Created(before))]
      else []
    case SessionReset(plugin) => []
    case HostReset(order) =>
      seq(|order|, i requires 0 <= i < |order| =>
        SessionEnded(order[i], if Open(before, order[i]).Some? then Open(before, order[i]).value else 0))
  }

  /** What an event adds to the messages for the agent. */
  function Downward(before: seq<Event>, e: Event): seq<Message> {
    match e
    case Received(m, startTime) =>
      if m.typ == RxData then
        if InSession(before, m) then [] else [Tx(Terminate, m.plugin, None, "")]
      else if m.typ == CreateRequest then
        [Barrier(startTime), Tx(CreateResponse, m.plugin, Some(Created(before)), "")]
      else []
    case SessionReset(plugin) => if Open(before, plugin).Some? then [Tx(Terminate, plugin, None, "")] else []
    case HostReset(order) => seq(|order|, i requires 0 <= i < |order| => Tx(Terminate, order[i], None, ""))
  }

  function AllUpward(events: seq<Event>): seq<Upstream> {
    if events == [] then []
    else AllUpward(events[..|events| - 1]) + Upward(events[..|events| - 1], events[|events| - 1])
  }

  function AllDownward(events: seq<Event>): seq<Message> {
    if events == [] then []
    else AllDownward(events[..|events| - 1]) + Downward(events[..|events| - 1], events[|events| - 1])
  }

  /** The session table is what the events say. */
  ghost predicate Agrees(l: Link, events: seq<Event>) {
    l.nextSession == Created(events) && forall p :: Current(l.sessions, p) == Open(events, p)
  }

  lemma EventAgrees(l: Link, events: seq<Event>, e: Event)
    requires Agrees(l, events) && Possible(l, e)
    ensures Agrees(Next(l, e), events + [e])
  {
    assert (events + [e])[..|events + [e]| - 1] == events;
    var t := Next(l, e);
    forall p ensures Current(t.sessions, p) == Open(events + [e], p) {
      assert Current(l.sessions, p) == Open(events, p);
    }
  }

  lemma EventQueues(l: Link, events: seq<Event>, e: Event)
    requires Agrees(l, events) && Possible(l, e)
    ensures Next(l, e).rx == l.rx + Upward(events, e)
    ensures Next(l, e).tx == l.tx + Downward(events, e)
  {
    match e {
      case Received(m, startTime) =>
        assert Current(l.sessions, m.plugin) == Open(events, m.plugin);
      case SessionReset(plugin) =>
        assert Current(l.sessions, plugin) == Open(events, plugin);
      case HostReset(order) =>
        forall i | 0 <= i < |order| ensures Open(events, order[i]) == Some(l.sessions[order[i]]) {
          assert order[i] in Elements(order);
          assert Current(l.sessions, order[i]) == Open(events, order[i]);
        }
        assert Ends(l.sessions, order) == Upward(events, e);
        assert Notices(order) == Downward(events, e);
    }
  }

  /** Over any POSTs and resets: the sessions are those the events left open, and the two
      queues hold what each event adds, in order. */
  lemma {:induction false} LinkFollowsEvents(links: seq<Link>, events: seq<Event>, n: nat)
    requires History(links, events) && n <= |events|
    ensures Agrees(links[n], events[..n])
    ensures links[n].rx == AllUpward(events[..n]) && links[n].tx == AllDownward(events[..n])
  {
    if n > 0 {
      LinkFollowsEvents(links, events, n - 1);
      assert Possible(links[n - 1], events[n - 1]);
      assert events[..n] == events[..n - 1] + [events[n - 1]];
      assert events[..n][..|events[..n]| - 1] == events[..n - 1];
      EventAgrees(links[n - 1], events[..n - 1], events[n - 1]);
      EventQueues(links[n - 1], events[..n - 1], events[n - 1]);
    }
  }

  // ---- Forwarding ----

  /** The messages forwarded, out of all that goes to the services. */
  function Forwards(us: seq<Upstream>): seq<Incoming> {
    if us == [] then []
    else Forwards(us[..|us| - 1]) + if us[|us| - 1].Forwarded? then [us[|us| - 1].message] else []
  }

  /** The data messages received in session, in order. */
  function Accepted(events: seq<Event>): seq<Incoming> {
    if events == [] then []
    else
      var before, last := events[..|events| - 1], events[|events| - 1];
      Accepted(before) +
      if last.Received? && last.message.typ == RxData && InSession(before, last.message) then [last.message] else []
  }

  lemma {:induction false} ForwardsSplit(a: seq<Upstream>, b: seq<Upstream>)
    ensures Forwards(a + b) == Forwards(a) + Forwards(b)
  {
    if b == [] {
      assert a + b == a;
    } else {
      assert (a + b)[..|a + b| - 1] == a + b[..|b| - 1];
      ForwardsSplit(a, b[..|b| - 1]);
    }
  }

  lemma {:induction false} NothingForwarded(us: seq<Upstream>)
    requires forall u | u in us :: !u.Forwarded?
    ensures Forwards(us) == []
  {
    if us != [] {
      NothingForwarded(us[..|us| - 1]);
      assert us[|us| - 1] in us;
    }
  }

  lemma ForwardsOfOne(before: seq<Event>, e: Event)
    ensures Forwards(Upward(before, e)) ==
            if e.Received? && e.message.typ == RxData && InSession(before, e.message) then [e.message] else []
  {
    if e.Received? && e.message.typ == RxData && InSession(before, e.message) {
      assert [Forwarded(e.message)][..0] == [];
    } else {
      NothingForwarded(Upward(before, e));
    }
  }

  lemma {:induction false} ForwardsOfAll(events: seq<Event>)
    ensures Forwards(AllUpward(events)) == Accepted(events)
  {
    if events != [] {
      var before, last := events[..|events| - 1], events[|events| - 1];
      ForwardsOfAll(before);
      ForwardsSplit(AllUpward(before), Upward(before, last));
      ForwardsOfOne(before, last);
    }
  }

  /** Over any POSTs and resets, exactly the data messages received in session are
      forwarded, each once and in order. */
  lemma ForwardedOnceInOrder(links: seq<Link>, events: seq<Event>)
    requires History(links, events)
    ensures Forwards(links[|events|].rx) == Accepted(events)
  {
    LinkFollowsEvents(links, events, |events|);
    assert events[..|events|] == events;
    ForwardsOfAll(events);
  }

  /** Event `k` requests a session for the plugin that nothing ends afterwards. */
  ghost predicate OpenedAt(events: seq<Event>, k: int, plugin: Plugin) {
    && 0 <= k < |events| && Creates(events[k]) && events[k].message.plugin == plugin
    && forall j | k < j < |events| ::
         && !(Creates(events[j]) && events[j].message.plugin == plugin)
         && !events[j].HostReset? && events[j] != SessionReset(plugin)
  }

  predicate Closes(e: Event, plugin: Plugin) {
    e.HostReset? || e == SessionReset(plugin)
  }

  /** How one more event changes which request opened the session. */
  lemma OpenedLater(before: seq<Event>, last: Event, plugin: Plugin, k: int)
    ensures OpenedAt(before + [last], k, plugin) <==>
            if Creates(last) && last.message.plugin == plugin then k == |before|
            else !Closes(last, plugin) && OpenedAt(before, k, plugin)
  {
    var events := before + [last];
    assert events[|before|] == last;
    if 0 <= k < |before| {
      assert before[k] == events[k];
      assert forall j | 0 <= j < |before| :: before[j] == events[j];
    }
  }

  /** A plugin has a session exactly if it requested one that no reset and no later request
      ended, and the session is numbered by the requests before. */
  lemma {:induction false} OpenExactlyWhen(events: seq<Event>, plugin: Plugin, n: nat)
    ensures Open(events, plugin) == Some(n) <==>
            exists k :: OpenedAt(events, k, plugin) && n == Created(events[..k])
  {
    if events != [] {
      var before, last := events[..|events| - 1], events[|events| - 1];
      OpenExactlyWhen(before, plugin, n);
      assert events == before + [last];
      forall k
        ensures OpenedAt(events, k, plugin) <==>
                if Creates(last) && last.message.plugin == plugin then k == |before|
                else !Closes(last, plugin) && OpenedAt(before, k, plugin)
        ensures OpenedAt(before, k, plugin) ==> events[..k] == before[..k]
      {
        OpenedLater(before, last, plugin, k);
      }
      if Creates(last) && last.message.plugin == plugin {
        assert OpenedAt(events, |before|, plugin);
      }
    }
  }
}
