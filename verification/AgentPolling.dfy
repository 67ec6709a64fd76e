/** Many GET handlers of one host compete for its TX queue while POST handlers and
    services keep sending.  A step system over the handlers' atomic actions. */
module AgentPolling {
  import opened Basics
  import opened AgentMessages

  datatype Phase =
    | Waiting                           // for the TX lock
    | First                             // holds the lock, blocking on its first message
    | More                              // holds the lock, taking whatever else is there
    | Collected                         // released the lock, not yet answered
    | Cancelled                         // answered with nothing because of a barrier
    | Answered(response: seq<Message>)

  /** A GET of the agent run `startTime` and the messages it has taken off the queue.
      They are number `from` up to (not including) `upto` of all that were ever sent. */
  datatype Get = Get(startTime: string, reset: bool, phase: Phase, messages: seq<Message>, taken: seq<Message>,
                     from: nat, upto: nat, table: Sessions)

  /** A POST of the agent run `startTime` that has created a session for the plugin, and
      the numbers under which it sent the barrier and then the response, once it has. */
  datatype Post = Post(startTime: string, plugin: Plugin, session: nat, barrier: Option<nat>, answer: Option<nat>)

  /** `tx` is the queue.  As history, `sent` is everything ever queued, `owner` says
      which GET took each message, and `holders` lists the GETs that had the lock. */
  datatype State = State(tx: seq<Message>, sessions: Sessions, lock: Option<nat>, gets: map<nat, Get>,
                         posts: map<nat, Post>, sent: seq<Message>, owner: seq<nat>, holders: seq<nat>)

  datatype Action =
    | Send(message: Message)
    | ChangeSessions(sessions: Sessions)
    | Create(post: nat, startTime: string, plugin: Plugin, session: nat)
    | SendBarrier(post: nat)
    | SendResponse(post: nat)
    | Arrive(id: nat, startTime: string, reset: bool)
    | Acquire(id: nat)
    | Take(id: nat)
    | FindEmpty(id: nat)
    | Answer(id: nat)

  const INITIAL := State([], map[], None, map[], map[], [], [], [])

  function Response(post: Post): Message {
    Tx(CreateResponse, post.plugin, Some(post.session), "")
  }

  predicate IsResponse(m: Message) {
    m.Tx? && m.typ == CreateResponse
  }

  ghost predicate Holds(s: State, id: nat) {
    s.lock == Some(id) && id in s.gets && (s.gets[id].phase.First? || s.gets[id].phase.More?)
  }

  ghost predicate Enabled(s: State, a: Action) {
    match a
    case Send(m) => m.Tx? && m.typ != CreateResponse
    case ChangeSessions(t) => true
    case Create(q, startTime, plugin, session) => q !in s.posts
    case SendBarrier(q) => q in s.posts && s.posts[q].barrier.None?
    case SendResponse(q) => q in s.posts && s.posts[q].barrier.Some? && s.posts[q].answer.None?
    case Arrive(id, startTime, reset) => id !in s.gets
    case Acquire(id) => id in s.gets && s.gets[id].phase.Waiting? && s.lock.None?
    case Take(id) => Holds(s, id) && s.tx != []
    case FindEmpty(id) => Holds(s, id) && s.tx == []
    case Answer(id) => id in s.gets && s.gets[id].phase.Collected?
  }

  function AfterTaking(g: Get, m: Message): Get {
    var h := g.(taken := g.taken + [m], upto := g.upto + 1);
    if Foreign(m, g.startTime) then h.(phase := Cancelled, messages := [])
    else h.(phase := More, messages := g.messages + (if m.Barrier? then [] else [m]))
  }

  function Queued(s: State, m: Message): State {
    s.(tx := s.tx + [m], sent := s.sent + [m])
  }

  ghost function Apply(s: State, a: Action): State
    requires Enabled(s, a)
  {
    match a
    case Send(m) => Queued(s, m)
    case ChangeSessions(t) => s.(sessions := t)
    case Create(q, startTime, plugin, session) =>
      s.(sessions := s.sessions[plugin := session],
         posts := s.posts[q := Post(startTime, plugin, session, None, None)])
    case SendBarrier(q) =>
      Queued(s, Barrier(s.posts[q].startTime)).(posts := s.posts[q := s.posts[q].(barrier := Some(|s.sent|))])
    case SendResponse(q) =>
      Queued(s, Response(s.posts[q])).(posts := s.posts[q := s.posts[q].(answer := Some(|s.sent|))])
    case Arrive(id, startTime, reset) =>
      s.(gets := s.gets[id := Get(startTime, reset, Waiting, Preamble(reset), [], 0, 0, map[])])
    case Acquire(id) =>
      s.(lock := Some(id), holders := s.holders + [id],
         gets := s.gets[id := s.gets[id].(phase := First, from := |s.owner|, upto := |s.owner|)])
    case Take(id) =>
      var g := AfterTaking(s.gets[id], s.tx[0]);
      s.(tx := s.tx[1..], owner := s.owner + [id], gets := s.gets[id := g],
         lock := if g.phase.Cancelled? then None else s.lock)
    case FindEmpty(id) => s.(lock := None, gets := s.gets[id := s.gets[id].(phase := Collected)])
    case Answer(id) =>
      var g := s.gets[id];
      s.(gets := s.gets[id := g.(phase := Answered(OnlyCurrent(s.sessions, g.messages)), table := s.sessions)])
  }

  ghost predicate Step(s: State, t: State) {
    exists a :: Enabled(s, a) && t == Apply(s, a)
  }

  ghost predicate Run(run: seq<State>) {
    && run != [] && run[0] == INITIAL
    && forall m, n {:trigger Step(run[m], run[n])} | 0 <= m < n < |run| && n == m + 1 :: Step(run[m], run[n])
  }

  // ---- Invariant: the queue ----

  /** No barrier of another agent run lies among the messages `from` up to `upto`. */
  ghost predicate NoForeign(sent: seq<Message>, from: nat, upto: nat, startTime: string) {
    forall i | from <= i < upto && i < |sent| :: !Foreign(sent[i], startTime)
  }

  ghost predicate Owns(owner: seq<nat>, id: nat, g: Get) {
    forall i | 0 <= i < |owner| :: owner[i] == id <==> g.from <= i < g.upto
  }

  /** What a GET carries is the barrier-free content of its piece, and its piece has
      no foreign barrier, save the last message if that cancelled it. */
  ghost predicate ContentOk(sent: seq<Message>, g: Get) {
    && g.from <= g.upto <= |sent| && g.taken == sent[g.from..g.upto]
    && (if g.phase.Cancelled?
        then g.from < g.upto && Foreign(sent[g.upto - 1], g.startTime) &&
             NoForeign(sent, g.from, g.upto - 1, g.startTime)
        else NoForeign(sent, g.from, g.upto, g.startTime) &&
             g.messages == Preamble(g.reset) + WithoutBarriers(g.taken))
    && (g.phase.Answered? ==> g.phase.response == OnlyCurrent(g.table, g.messages))
  }

  ghost predicate GetOk(s: State, id: nat, g: Get) {
    && g.upto <= |s.owner|
    && Owns(s.owner, id, g)
    && ContentOk(s.sent, g)
    && (g.phase.Waiting? ==> g.from == g.upto == 0)
    && (g.phase.First? || g.phase.More? ==> s.lock == Some(id) && g.upto == |s.owner|)
  }

  ghost predicate QueueOk(s: State) {
    && |s.owner| <= |s.sent| && s.tx == s.sent[|s.owner|..]
    && (forall i | 0 <= i < |s.owner| :: s.owner[i] in s.gets)
    && (s.lock.Some? ==> Holds(s, s.lock.value))
    && (forall id {:trigger GetOk(s, id, s.gets[id])} | id in s.gets :: GetOk(s, id, s.gets[id]))
  }

  predicate IsSend(a: Action) {
    a.Send? || a.SendBarrier? || a.SendResponse?
  }

  lemma QueuedKeeps(s: State, m: Message)
    requires QueueOk(s)
    ensures QueueOk(Queued(s, m))
  {
    var t := Queued(s, m);
    forall id | id in t.gets ensures GetOk(t, id, t.gets[id]) {
      var g := s.gets[id];
      assert GetOk(s, id, g);
      assert t.sent[g.from..g.upto] == s.sent[g.from..g.upto];
    }
  }

  lemma PostsDoNotMatter(s: State, t: State)
    requires QueueOk(s) && t == s.(posts := t.posts)
    ensures QueueOk(t)
  {
    forall id | id in t.gets ensures GetOk(t, id, t.gets[id]) {
      assert GetOk(s, id, s.gets[id]);
    }
  }

  lemma SendKeeps(s: State, a: Action)
    requires QueueOk(s) && Enabled(s, a) && IsSend(a)
    ensures QueueOk(Apply(s, a))
  {
    var m := if a.Send? then a.message else if a.SendBarrier? then Barrier(s.posts[a.post].startTime)
      else Response(s.posts[a.post]);
    QueuedKeeps(s, m);
    PostsDoNotMatter(Queued(s, m), Apply(s, a));
  }

  lemma WithoutBarriersMore(ms: seq<Message>, m: Message)
    ensures WithoutBarriers(ms + [m]) == WithoutBarriers(ms) + if m.Barrier? then [] else [m]
  {
    assert (ms + [m])[..|ms + [m]| - 1] == ms;
  }

  lemma TakenMessages(g: Get, m: Message)
    requires g.messages == Preamble(g.reset) + WithoutBarriers(g.taken) && !Foreign(m, g.startTime)
    ensures var h := AfterTaking(g, m); h.messages == Preamble(h.reset) + WithoutBarriers(h.taken)
  {
    WithoutBarriersMore(g.taken, m);
    var more := if m.Barrier? then [] else [m];
    assert (Preamble(g.reset) + WithoutBarriers(g.taken)) + more ==
      Preamble(g.reset) + (WithoutBarriers(g.taken) + more);
  }

  lemma SliceMore(ms: seq<Message>, from: nat, upto: nat)
    requires from <= upto < |ms|
    ensures ms[from..upto] + [ms[upto]] == ms[from..upto + 1]
  {
  }

  lemma TakenContentOk(sent: seq<Message>, g: Get)
    requires ContentOk(sent, g) && (g.phase.First? || g.phase.More?) && g.upto < |sent|
    ensures ContentOk(sent, AfterTaking(g, sent[g.upto]))
  {
    var m := sent[g.upto];
    SliceMore(sent, g.from, g.upto);
    if !Foreign(m, g.startTime) {
      TakenMessages(g, m);
    }
  }

  lemma OwnsMore(owner: seq<nat>, id: nat, g: Get, h: Get)
    requires Owns(owner, id, g) && g.from <= g.upto == |owner| && h.from == g.from && h.upto == g.upto + 1
    ensures Owns(owner + [id], id, h)
  {
  }

  lemma TakenByHolder(s: State, id: nat)
    requires QueueOk(s) && Enabled(s, Take(id))
    ensures GetOk(Apply(s, Take(id)), id, Apply(s, Take(id)).gets[id])
  {
    var g := s.gets[id];
    assert GetOk(s, id, g);
    var m := s.sent[g.upto];
    assert s.tx[0] == m;
    TakenContentOk(s.sent, g);
    OwnsMore(s.owner, id, g, AfterTaking(g, m));
  }

  lemma TakeKeeps(s: State, id: nat)
    requires QueueOk(s) && Enabled(s, Take(id))
    ensures QueueOk(Apply(s, Take(id)))
  {
    var t := Apply(s, Take(id));
    TakenByHolder(s, id);
    forall other | other in t.gets && other != id ensures GetOk(t, other, t.gets[other]) {
      assert GetOk(s, other, s.gets[other]);
    }
    forall i | 0 <= i < |t.owner| ensures t.owner[i] in t.gets {
      assert i < |s.owner| ==> s.owner[i] in s.gets;
    }
  }

  lemma ArriveKeeps(s: State, id: nat, startTime: string, reset: bool)
    requires QueueOk(s) && Enabled(s, Arrive(id, startTime, reset))
    ensures QueueOk(Apply(s, Arrive(id, startTime, reset)))
  {
    var t := Apply(s, Arrive(id, startTime, reset));
    forall other | other in t.gets ensures GetOk(t, other, t.gets[other]) {
      if other == id {
        assert s.sent[0..0] == [] && Preamble(reset) + [] == Preamble(reset);
        assert forall i | 0 <= i < |s.owner| :: s.owner[i] in s.gets;
      } else {
        assert GetOk(s, other, s.gets[other]);
      }
    }
  }

  lemma AcquireKeeps(s: State, id: nat)
    requires QueueOk(s) && Enabled(s, Acquire(id))
    ensures QueueOk(Apply(s, Acquire(id)))
  {
    var t := Apply(s, Acquire(id));
    var n := |s.owner|;
    forall other | other in t.gets ensures GetOk(t, other, t.gets[other]) {
      assert GetOk(s, other, s.gets[other]);
      if other == id {
        assert s.sent[n..n] == s.sent[0..0];
      }
    }
  }

  lemma OthersKeep(s: State, a: Action)
    requires QueueOk(s) && Enabled(s, a) && (a.ChangeSessions? || a.Create? || a.FindEmpty? || a.Answer?)
    ensures QueueOk(Apply(s, a))
  {
    var t := Apply(s, a);
    forall id | id in t.gets ensures GetOk(t, id, t.gets[id]) {
      assert GetOk(s, id, s.gets[id]);
    }
  }

  lemma StepKeepsQueue(s: State, a: Action)
    requires QueueOk(s) && Enabled(s, a)
    ensures QueueOk(Apply(s, a))
  {
    match a {
      case Take(id) => TakeKeeps(s, id);
      case Arrive(id, startTime, reset) => ArriveKeeps(s, id, startTime, reset);
      case Acquire(id) => AcquireKeeps(s, id);
      case _ =>
        if IsSend(a) {
          SendKeeps(s, a);
        } else {
          OthersKeep(s, a);
        }
    }
  }

  // ---- Invariant: the succession of lock holders ----

  /** The pieces of successive holders follow one another, and the last one ends where
      the queue begins. */
  ghost predicate HoldersOk(s: State) {
    && NoDuplicates(s.holders)
    && (forall k {:trigger HolderOk(s, k)} | 0 <= k < |s.holders| :: HolderOk(s, k))
    && EndOf(s, |s.holders|) == |s.owner|
    && (s.lock.Some? ==> s.holders != [] && s.holders[|s.holders| - 1] == s.lock.value)
  }

  ghost predicate HolderOk(s: State, k: nat)
    requires k < |s.holders|
  {
    s.holders[k] in s.gets && !s.gets[s.holders[k]].phase.Waiting? && s.gets[s.holders[k]].from == EndOf(s, k)
  }

  /** Where the piece of the `k`-th holder begins. */
  ghost function EndOf(s: State, k: nat): nat
    requires k <= |s.holders|
  {
    if k == 0 || s.holders[k - 1] !in s.gets then 0 else s.gets[s.holders[k - 1]].upto
  }

  /** The pieces of holders other than `id` are the same. */
  lemma OtherPiecesStay(s: State, t: State, id: nat, k: nat)
    requires k <= |s.holders| <= |t.holders| && forall j | 0 <= j < |s.holders| :: t.holders[j] == s.holders[j]
    requires forall x | x in s.gets && x != id :: x in t.gets && t.gets[x] == s.gets[x]
    requires id in s.gets && id in t.gets && (k > 0 ==> s.holders[k - 1] != id && s.holders[k - 1] in s.gets)
    ensures EndOf(t, k) == EndOf(s, k)
  {
  }

  lemma AcquireKeepsHolders(s: State, id: nat)
    requires QueueOk(s) && HoldersOk(s) && Enabled(s, Acquire(id))
    ensures HoldersOk(Apply(s, Acquire(id)))
  {
    var t := Apply(s, Acquire(id));
    forall k | 0 <= k < |s.holders| ensures s.holders[k] != id && s.holders[k] in s.gets {
      assert HolderOk(s, k);
    }
    forall k | 0 <= k < |t.holders| ensures HolderOk(t, k) {
      OtherPiecesStay(s, t, id, k);
      if k < |s.holders| {
        assert HolderOk(s, k);
      }
    }
  }

  lemma TakeKeepsHolders(s: State, id: nat)
    requires QueueOk(s) && HoldersOk(s) && Enabled(s, Take(id))
    ensures HoldersOk(Apply(s, Take(id)))
  {
    var t := Apply(s, Take(id));
    var last := |s.holders| - 1;
    forall k | 0 <= k < |t.holders| ensures HolderOk(t, k) {
      assert HolderOk(s, k);
      if k > 0 {
        assert HolderOk(s, k - 1) && s.holders[k - 1] != s.holders[last];
      }
      OtherPiecesStay(s, t, id, k);
    }
    assert GetOk(s, id, s.gets[id]);
  }

  lemma HoldersCarryOver(s: State, t: State)
    requires HoldersOk(s) && t.holders == s.holders && t.owner == s.owner && (t.lock == s.lock || t.lock.None?)
    requires forall id | id in s.gets :: id in t.gets && SamePiece(s.gets[id], t.gets[id])
    ensures HoldersOk(t)
  {
    forall k | 0 <= k <= |s.holders| ensures EndOf(t, k) == EndOf(s, k) {
      if k > 0 {
        assert HolderOk(s, k - 1);
      }
    }
    forall k | 0 <= k < |t.holders| ensures HolderOk(t, k) {
      assert HolderOk(s, k);
    }
  }

  predicate SamePiece(g: Get, h: Get) {
    h.from == g.from && h.upto == g.upto && (h.phase.Waiting? ==> g.phase.Waiting?)
  }

  lemma StepKeepsHolders(s: State, a: Action)
    requires QueueOk(s) && HoldersOk(s) && Enabled(s, a)
    ensures HoldersOk(Apply(s, a))
  {
    if a.Acquire? {
      AcquireKeepsHolders(s, a.id);
    } else if a.Take? {
      TakeKeepsHolders(s, a.id);
    } else {
      HoldersCarryOver(s, Apply(s, a));
    }
  }

  // ---- Invariant: posts ----

  /** A POST sends its barrier and then its response. */
  ghost predicate PostOk(sent: seq<Message>, post: Post) {
    && (post.barrier.Some? ==> post.barrier.value < |sent| && sent[post.barrier.value] == Barrier(post.startTime))
    && (post.answer.Some? ==>
          && post.barrier.Some? && post.barrier.value < post.answer.value < |sent|
          && sent[post.answer.value] == Tx(CreateResponse, post.plugin, Some(post.session), ""))
  }

  ghost predicate Fences(s: State, i: nat) {
    exists q :: q in s.posts && s.posts[q].barrier == Some(i)
  }

  ghost predicate Responds(s: State, i: nat) {
    exists q :: q in s.posts && s.posts[q].answer == Some(i)
  }

  /** Barriers and create responses are sent by POSTs only. */
  ghost predicate PostsOk(s: State) {
    && (forall q | q in s.posts :: PostOk(s.sent, s.posts[q]))
    && (forall i | 0 <= i < |s.sent| && s.sent[i].Barrier? :: Fences(s, i))
    && (forall i | 0 <= i < |s.sent| && IsResponse(s.sent[i]) :: Responds(s, i))
  }

  /** What was sent stays sent. */
  lemma PostsCarryOver(s: State, t: State, i: nat)
    requires forall q | q in s.posts ::
               && q in t.posts
               && (s.posts[q].barrier.Some? ==> t.posts[q].barrier == s.posts[q].barrier)
               && (s.posts[q].answer.Some? ==> t.posts[q].answer == s.posts[q].answer)
    ensures Fences(s, i) ==> Fences(t, i)
    ensures Responds(s, i) ==> Responds(t, i)
  {
    if q :| q in s.posts && s.posts[q].barrier == Some(i) {
      assert t.posts[q].barrier == Some(i);
    }
    if q :| q in s.posts && s.posts[q].answer == Some(i) {
      assert t.posts[q].answer == Some(i);
    }
  }

  lemma SendKeepsPosts(s: State, a: Action)
    requires PostsOk(s) && Enabled(s, a) && IsSend(a)
    ensures PostsOk(Apply(s, a))
  {
    var t := Apply(s, a);
    forall i | 0 <= i < |t.sent|
      ensures t.sent[i].Barrier? ==> Fences(t, i)
      ensures IsResponse(t.sent[i]) ==> Responds(t, i)
    {
      if i < |s.sent| {
        PostsCarryOver(s, t, i);
      } else if !a.Send? {
        assert PostOk(s.sent, s.posts[a.post]);
        assert a.SendBarrier? ==> t.posts[a.post].barrier == Some(i);
        assert a.SendResponse? ==> t.posts[a.post].answer == Some(i);
      }
    }
    forall q | q in t.posts ensures PostOk(t.sent, t.posts[q]) {
      assert PostOk(s.sent, s.posts[q]);
    }
  }

  lemma StepKeepsPosts(s: State, a: Action)
    requires PostsOk(s) && Enabled(s, a)
    ensures PostsOk(Apply(s, a))
  {
    var t := Apply(s, a);
    if IsSend(a) {
      SendKeepsPosts(s, a);
    } else {
      forall i | 0 <= i < |t.sent|
        ensures t.sent[i].Barrier? ==> Fences(t, i)
        ensures IsResponse(t.sent[i]) ==> Responds(t, i)
      {
        PostsCarryOver(s, t, i);
      }
    }
  }

  // ---- Every run ----

  ghost predicate Inv(s: State) {
    QueueOk(s) && HoldersOk(s) && PostsOk(s)
  }

  lemma StepKeeps(s: State, a: Action)
    requires Inv(s) && Enabled(s, a)
    ensures Inv(Apply(s, a))
  {
    StepKeepsQueue(s, a);
    StepKeepsHolders(s, a);
    StepKeepsPosts(s, a);
  }

  lemma RunMore(run: seq<State>, a: Action)
    requires Run(run) && Enabled(run[|run| - 1], a)
    ensures Run(run + [Apply(run[|run| - 1], a)])
  {
    var t := Apply(run[|run| - 1], a);
    var longer := run + [t];
    assert Step(run[|run| - 1], t);
    forall m, n | 0 <= m < n < |longer| && n == m + 1 ensures Step(longer[m], longer[n]) {
      if n < |run| {
        assert Step(run[m], run[n]);
      }
    }
  }

  lemma {:induction false} RunKeeps(run: seq<State>, n: nat)
    requires Run(run) && n < |run|
    ensures Inv(run[n])
  {
    if n > 0 {
      RunKeeps(run, n - 1);
      assert Step(run[n - 1], run[n]);
      var a :| Enabled(run[n - 1], a) && run[n] == Apply(run[n - 1], a);
      StepKeeps(run[n - 1], a);
    }
  }

  // ---- What every run guarantees ----

  /** What the first `k` lock holders took off the queue, one after the other. */
  ghost function TakenBy(s: State, k: nat): seq<Message>
    requires k <= |s.holders|
  {
    if k == 0 then []
    else TakenBy(s, k - 1) + if s.holders[k - 1] in s.gets then s.gets[s.holders[k - 1]].taken else []
  }

  lemma {:induction false} PiecesFollow(s: State, k: nat)
    requires Inv(s) && k <= |s.holders|
    ensures EndOf(s, k) <= |s.sent| && TakenBy(s, k) == s.sent[..EndOf(s, k)]
  {
    if k > 0 {
      PiecesFollow(s, k - 1);
      PieceOf(s, k - 1);
      var a, b := EndOf(s, k - 1), EndOf(s, k);
      assert s.sent[..a] + s.sent[a..b] == s.sent[..b];
    }
  }

  lemma PieceOf(s: State, k: nat)
    requires Inv(s) && k < |s.holders|
    ensures s.holders[k] in s.gets && EndOf(s, k) <= EndOf(s, k + 1) <= |s.sent|
    ensures s.gets[s.holders[k]].taken == s.sent[EndOf(s, k)..EndOf(s, k + 1)]
  {
    var id := s.holders[k];
    assert HolderOk(s, k);
    assert GetOk(s, id, s.gets[id]);
  }

  /** Conservation and order: at every point of every run, what successive lock holders
      took, followed by the queue, is what was ever sent. */
  lemma NothingIsLostOrReordered(run: seq<State>, n: nat)
    requires Run(run) && n < |run|
    ensures TakenBy(run[n], |run[n].holders|) + run[n].tx == run[n].sent
    ensures NoDuplicates(run[n].holders)
  {
    RunKeeps(run, n);
    PiecesFollow(run[n], |run[n].holders|);
  }

  /** Every message was taken by exactly one GET or is still queued. */
  lemma TakenOnce(run: seq<State>, n: nat, i: nat)
    requires Run(run) && n < |run| && i < |run[n].sent|
    ensures var s := run[n];
            && (i < |s.sent| - |s.tx| <==> exists id | id in s.gets :: s.gets[id].from <= i < s.gets[id].upto)
            && (forall a, b | a in s.gets && b in s.gets &&
                              s.gets[a].from <= i < s.gets[a].upto && s.gets[b].from <= i < s.gets[b].upto :: a == b)
  {
    RunKeeps(run, n);
    var s := run[n];
    assert forall id | id in s.gets :: GetOk(s, id, s.gets[id]);
    if i < |s.owner| {
      assert s.owner[i] in s.gets;
    }
  }

  /** A GET's answer is the in-order, barrier-free content of its own piece, behind
      the notice to terminate all sessions if the host state asked for one, filtered
      by the sessions at that time; a cancelled GET answers nothing. */
  lemma AnswerIsItsOwnPiece(run: seq<State>, n: nat, id: nat)
    requires Run(run) && n < |run| && id in run[n].gets && run[n].gets[id].phase.Answered?
    ensures var s, g := run[n], run[n].gets[id];
            && g.from <= g.upto <= |s.sent|
            && g.phase.response ==
               OnlyCurrent(g.table, Preamble(g.reset) + WithoutBarriers(s.sent[g.from..g.upto]))
            && g.taken == s.sent[g.from..g.upto]
            && NoForeign(s.sent, g.from, g.upto, g.startTime)
    ensures var s, g := run[n], run[n].gets[id];
            && (forall m :: m in g.phase.response <==>
                  && m.Tx? && m.session == (if m.plugin in g.table then Some(g.table[m.plugin]) else None)
                  && (m in s.sent[g.from..g.upto] || (g.reset && m == Tx(TerminateAll, None, None, ""))))
            && (g.reset && None !in g.table ==>
                  g.phase.response != [] && g.phase.response[0] == Tx(TerminateAll, None, None, ""))
  {
    RunKeeps(run, n);
    assert GetOk(run[n], id, run[n].gets[id]);
    var g := run[n].gets[id];
    AnswerOf(g.table, g.reset, g.taken);
  }

  /** An answer holds the messages of current sessions among those taken, behind the notice
      that ends all sessions if the GET was to be reset. */
  lemma AnswerOf(table: Sessions, reset: bool, taken: seq<Message>)
    ensures var response := OnlyCurrent(table, Preamble(reset) + WithoutBarriers(taken));
            && (forall m :: m in response <==>
                  && m.Tx? && m.session == (if m.plugin in table then Some(table[m.plugin]) else None)
                  && (m in taken || (reset && m == Tx(TerminateAll, None, None, ""))))
            && (reset && None !in table ==> response != [] && response[0] == Tx(TerminateAll, None, None, ""))
  {
    var all := Preamble(reset) + WithoutBarriers(taken);
    forall m
      ensures m in OnlyCurrent(table, all) <==> IsCurrent(table, m) && (m in taken || m in Preamble(reset))
    {
      WhatSurvivesTheFilter(table, all, m);
      WithoutBarriersFacts(taken, m);
    }
    FilterSplits(table, Preamble(reset), WithoutBarriers(taken));
    if reset {
      FilterOne(table, Tx(TerminateAll, None, None, ""));
    }
  }

  /** Without a reset a GET only tells the agent to end all sessions if that was sent to it. */
  lemma NoticeOnlyIfSent(run: seq<State>, n: nat, id: nat, m: Message)
    requires Run(run) && n < |run| && id in run[n].gets && run[n].gets[id].phase.Answered? && !run[n].gets[id].reset
    requires m in run[n].gets[id].phase.response && m.Tx? && m.typ == TerminateAll
    ensures exists i :: run[n].gets[id].from <= i < run[n].gets[id].upto <= |run[n].sent| && run[n].sent[i] == m
  {
    AnswerIsItsOwnPiece(run, n, id);
    var g := run[n].gets[id];
    assert m in run[n].sent[g.from..g.upto];
  }

  /** The sessions that matter are those at the moment of answering. */
  lemma AnsweredByTheTable(run: seq<State>, n: nat, id: nat, m: Message)
    requires Run(run) && n < |run| && Enabled(run[n], Answer(id))
    ensures var t := Apply(run[n], Answer(id));
            && t.gets[id].phase.Answered? && t.sessions == run[n].sessions
            && (m in t.gets[id].phase.response ==>
                  m.Tx? && m.session == if m.plugin in t.sessions then Some(t.sessions[m.plugin]) else None)
  {
    WhatSurvivesTheFilter(run[n].sessions, run[n].gets[id].messages, m);
  }

  /** Message number `p` lies behind the barrier number `b`, the last one before it. */
  ghost predicate Governs(sent: seq<Message>, b: nat, p: nat) {
    b < p < |sent| && sent[b].Barrier? && forall i | b < i < p :: !sent[i].Barrier?
  }

  /** Barrier safety: what a GET took from behind a barrier of another agent run, it
      took only after some other GET had removed that barrier; it never passes such a
      barrier itself. */
  lemma ForeignMessagesOnlyPastARemovedBarrier(run: seq<State>, n: nat, id: nat, b: nat, p: nat)
    requires Run(run) && n < |run| && id in run[n].gets
    requires var g := run[n].gets[id]; g.from <= p < g.upto && !g.phase.Cancelled?
    requires Governs(run[n].sent, b, p) && Foreign(run[n].sent[b], run[n].gets[id].startTime)
    ensures b < run[n].gets[id].from && b < |run[n].owner| && run[n].owner[b] != id
  {
    RunKeeps(run, n);
    assert GetOk(run[n], id, run[n].gets[id]);
  }

  /** On meeting a barrier of another agent run, a GET answers nothing, gives up the
      lock, and leaves everything behind the barrier queued in order. */
  lemma ForeignBarrierCancels(run: seq<State>, n: nat, id: nat)
    requires Run(run) && n < |run| && Enabled(run[n], Take(id))
    requires Foreign(run[n].tx[0], run[n].gets[id].startTime)
    ensures var t := Apply(run[n], Take(id));
            t.gets[id].phase == Cancelled && t.gets[id].messages == [] && t.lock == None && t.tx == run[n].tx[1..]
    ensures TakenBy(Apply(run[n], Take(id)), |run[n].holders|) + run[n].tx[1..] == run[n].sent
  {
    RunKeeps(run, n);
    var t := Apply(run[n], Take(id));
    StepKeeps(run[n], Take(id));
    PiecesFollow(t, |t.holders|);
  }

  // ---- Create responses and their barriers ----

  /** The other POST sent its barrier between the two sends of `post`. */
  predicate Between(post: Post, other: Post) {
    post.barrier.Some? && post.answer.Some? && other.barrier.Some?
    && post.barrier.value < other.barrier.value < post.answer.value
  }

  /** A POST's response is governed by the POST's own barrier exactly if no other POST
      sent a barrier between its two sends. */
  lemma OwnBarrierGovernsExactlyWhen(run: seq<State>, n: nat, q: nat)
    requires Run(run) && n < |run| && q in run[n].posts && run[n].posts[q].answer.Some?
    ensures var s, post := run[n], run[n].posts[q];
            && post.barrier.Some? && post.barrier.value < post.answer.value < |s.sent|
            && s.sent[post.barrier.value] == Barrier(post.startTime)
            && s.sent[post.answer.value] == Tx(CreateResponse, post.plugin, Some(post.session), "")
            && (Governs(s.sent, post.barrier.value, post.answer.value) <==>
                forall x | x in s.posts :: !Between(post, s.posts[x]))
  {
    RunKeeps(run, n);
    var s, post := run[n], run[n].posts[q];
    assert PostOk(s.sent, post);
    if x :| x in s.posts && Between(post, s.posts[x]) {
      assert PostOk(s.sent, s.posts[x]);
    } else {
      forall i | post.barrier.value < i < post.answer.value ensures !s.sent[i].Barrier? {
        assert s.sent[i].Barrier? ==> Fences(s, i);
      }
    }
  }

  /** Every create response was sent by a POST. */
  lemma ResponsesAreSentByPosts(run: seq<State>, n: nat, p: nat) returns (q: nat)
    requires Run(run) && n < |run| && p < |run[n].sent| && IsResponse(run[n].sent[p])
    ensures q in run[n].posts && run[n].posts[q].answer == Some(p)
  {
    RunKeeps(run, n);
    assert Responds(run[n], p);
    q :| q in run[n].posts && run[n].posts[q].answer == Some(p);
  }

  /** Two POSTs whose sends interleave: the response of the first lies behind the barrier
      of the second. */
  lemma PostsCanSwapBarriers(a: State, b: State, c: State, d: State, e: State)
    requires a == Apply(INITIAL, Create(1, "new", Some("x"), 7)) && b == Apply(a, Create(2, "newer", Some("y"), 8))
    requires Enabled(b, SendBarrier(1)) && c == Apply(b, SendBarrier(1))
    requires Enabled(c, SendBarrier(2)) && d == Apply(c, SendBarrier(2))
    requires Enabled(d, SendResponse(1)) && e == Apply(d, SendResponse(1))
    ensures Run([INITIAL] + [a] + [b] + [c] + [d] + [e])
    ensures e.sent == [Barrier("new"), Barrier("newer"), Tx(CreateResponse, Some("x"), Some(7), "")]
    ensures e.posts[1].barrier == Some(0) && e.posts[1].answer == Some(2)
    ensures Governs(e.sent, 1, 2) && !Governs(e.sent, 0, 2)
  {
    RunMore([INITIAL], Create(1, "new", Some("x"), 7));
    RunMore([INITIAL] + [a], Create(2, "newer", Some("y"), 8));
    RunMore([INITIAL] + [a] + [b], SendBarrier(1));
    RunMore([INITIAL] + [a] + [b] + [c], SendBarrier(2));
    RunMore([INITIAL] + [a] + [b] + [c] + [d], SendResponse(1));
    assert c.sent == [Barrier("new")] && d.sent == [Barrier("new"), Barrier("newer")];
    assert e.sent[1].Barrier?;
  }
}
