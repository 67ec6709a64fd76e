/** An action is started from a worker thread while the caller waits for the outcome or
    for a cancellation. */
module ActionInvocation {
  import opened Basics

  datatype Message = Start(id: nat) | Cancel(id: nat)

  datatype Worker = Begin | Sent | Stored | Finished

  /** Where the caller is: at the top of the loop, waiting, past the loop, about to send
      the cancellation, or out, with a result, the worker's error, a cancellation or the
      failure to send one. */
  datatype Caller =
    | Loop
    | Waiting
    | Woken
    | Cancelling
    | Returned(content: Option<string>)
    | Raised(error: string)
    | Cancelled
    | CancelFailed(error: string)

  /** What the agent's side said to the worker. */
  datatype Answer = Content(content: string) | Failure(why: string)

  /** `answer` is history: the answer to the worker, if there was one. */
  datatype State = State(id: nat, worker: Worker, caller: Caller, ok: Option<string>, error: Option<string>,
                         trigger: bool, cancel: bool, log: seq<Message>, answer: Option<Answer>)

  datatype Action =
    | SetCancel
    | SendStart
    | FailStart(why: string)
    | Reply(content: string)
    | FailReply(why: string)
    | SetTrigger
    | Check
    | Wake
    | Finish
    | SendCancel
    | FailCancel(why: string, sent: bool)

  function Initial(id: nat, cancel: bool): State {
    State(id, Begin, Loop, None, None, false, cancel, [], None)
  }

  predicate Enabled(s: State, a: Action) {
    match a
    case SetCancel => true
    case SendStart => s.worker.Begin?
    case FailStart(_) => s.worker.Begin?
    case Reply(_) => s.worker.Sent?
    case FailReply(_) => s.worker.Sent?
    case SetTrigger => s.worker.Stored?
    case Check => s.caller.Loop?
    case Wake => s.caller.Waiting?
    case Finish => s.caller.Woken?
    case SendCancel => s.caller.Cancelling?
    case FailCancel(_, _) => s.caller.Cancelling?
  }

  function Apply(s: State, a: Action): State
    requires Enabled(s, a)
  {
    match a
    case SetCancel => s.(cancel := true)
    case SendStart => s.(worker := Sent, log := s.log + [Start(s.id)])
    case FailStart(why) => s.(worker := Stored, error := Some(why), answer := Some(Failure(why)))
    case Reply(content) => s.(worker := Stored, ok := Some(content), answer := Some(Content(content)))
    case FailReply(why) => s.(worker := Stored, error := Some(why), answer := Some(Failure(why)))
    case SetTrigger => s.(worker := Finished, trigger := true)
    case Check => s.(caller := if s.cancel then Cancelling else Waiting)
    // The wait ends after a second or with the trigger.
    case Wake => s.(caller := if s.trigger then Woken else Loop)
    case Finish => s.(caller := if s.error.Some? then Raised(s.error.value) else Returned(s.ok))
    case SendCancel => s.(caller := Cancelled, log := s.log + [Cancel(s.id)])
    case FailCancel(why, sent) => s.(caller := CancelFailed(why), log := if sent then s.log + [Cancel(s.id)] else s.log)
  }

  ghost predicate Step(s: State, t: State) {
    exists a :: Enabled(s, a) && t == Apply(s, a)
  }

  ghost predicate Run(run: seq<State>) {
    && run != []
    && forall m, n {:trigger Step(run[m], run[n])} | 0 <= m < n < |run| && n == m + 1 :: Step(run[m], run[n])
  }

  predicate Exited(s: State) {
    s.caller.Returned? || s.caller.Raised? || s.caller.Cancelled? || s.caller.CancelFailed?
  }

  // ---- What every interleaving keeps ----

  /** One start and one cancellation at most, both of this invocation. */
  predicate LogOk(s: State) {
    var start, cancel := Start(s.id), Cancel(s.id);
    && s.log in {[], [start], [cancel], [start, cancel], [cancel, start]}
    && (start in s.log ==> !s.worker.Begin?) && (s.worker.Sent? ==> start in s.log)
    && (s.ok.Some? ==> start in s.log)
    && (cancel in s.log ==> s.caller.Cancelled? || s.caller.CancelFailed?)
    && (s.caller.Cancelled? ==> cancel in s.log)
  }

  predicate WorkerOk(s: State) {
    && (s.trigger <==> s.worker.Finished?)
    && (s.worker.Begin? || s.worker.Sent? ==> s.ok.None? && s.error.None?)
    && (s.worker.Stored? || s.worker.Finished? ==> s.ok.None? != s.error.None?)
    && s.ok == (if s.answer.Some? && s.answer.value.Content? then Some(s.answer.value.content) else None)
    && s.error == (if s.answer.Some? && s.answer.value.Failure? then Some(s.answer.value.why) else None)
  }

  predicate CallerOk(s: State) {
    match s.caller
    case Loop => true
    case Waiting => true
    case Woken => s.trigger
    case Returned(content) => s.trigger && content.Some? && content == s.ok
    case Raised(error) => s.trigger && s.error == Some(error)
    case _ => s.cancel
  }

  predicate Inv(s: State) {
    LogOk(s) && WorkerOk(s) && CallerOk(s)
  }

  lemma LogGrows(s: State, a: Action)
    requires Inv(s) && Enabled(s, a)
    ensures LogOk(Apply(s, a))
  {
    var t := Apply(s, a);
    if a.SendStart? {
      assert s.log == [] || s.log == [Cancel(s.id)];
      assert t.log == [Start(s.id)] || t.log == [Cancel(s.id), Start(s.id)];
    } else if a.SendCancel? || (a.FailCancel? && a.sent) {
      assert s.log == [] || s.log == [Start(s.id)];
      assert t.log == [Cancel(s.id)] || t.log == [Start(s.id), Cancel(s.id)];
    }
  }

  lemma StepKeeps(s: State, a: Action)
    requires Inv(s) && Enabled(s, a)
    ensures Inv(Apply(s, a))
    ensures Exited(s) ==> Apply(s, a).caller == s.caller
  {
    LogGrows(s, a);
  }

  lemma {:induction false} RunKeeps(run: seq<State>, m: nat, n: nat)
    requires Run(run) && Inv(run[0]) && m <= n < |run|
    ensures Inv(run[n]) && (Exited(run[m]) ==> run[n].caller == run[m].caller)
    decreases n
  {
    if n > 0 {
      RunKeeps(run, if m == n then m - 1 else m, n - 1);
      assert Step(run[n - 1], run[n]);
      var a :| Enabled(run[n - 1], a) && run[n] == Apply(run[n - 1], a);
      StepKeeps(run[n - 1], a);
    }
  }

  /** In every interleaving: a normal exit comes after the worker has stored its outcome
      and is exactly that outcome; a cancellation comes only if it was asked for, after
      one cancel request, which has the id of the start request; an exit is final. */
  lemma ExitIsFaithful(run: seq<State>, id: nat, cancel: bool, n: nat)
    requires Run(run) && run[0] == Initial(id, cancel) && n < |run|
    ensures run[n].caller.Returned? ==> run[n].trigger && run[n].error.None?
    ensures run[n].caller.Returned? ==> run[n].ok.Some? && run[n].caller.content == run[n].ok
    ensures run[n].caller.Raised? ==> run[n].trigger && run[n].ok.None? && run[n].error == Some(run[n].caller.error)
    ensures run[n].caller.Returned? ==>
              run[n].caller.content.Some? && run[n].answer == Some(Content(run[n].caller.content.value))
    ensures run[n].caller.Raised? ==> run[n].answer == Some(Failure(run[n].caller.error))
    ensures run[n].caller.Cancelled? ==> run[n].cancel && multiset(run[n].log)[Cancel(run[n].id)] == 1
    ensures !(run[n].caller.Cancelled? || run[n].caller.CancelFailed?) ==> Cancel(run[n].id) !in run[n].log
    ensures multiset(run[n].log)[Start(run[n].id)] <= 1 &&
            forall k | 0 <= k < |run[n].log| :: run[n].log[k].id == run[n].id
    ensures forall m | 0 <= m <= n && Exited(run[m]) :: run[n].caller == run[m].caller
  {
    RunKeeps(run, n, n);
    forall m | 0 <= m <= n && Exited(run[m]) ensures run[n].caller == run[m].caller {
      RunKeeps(run, m, n);
    }
  }

  // ---- A cancellation can overtake the start ----

  /** The action was started although its cancellation had been sent before. */
  predicate StartedAfterCancel(s: State) {
    s.log == [Cancel(s.id), Start(s.id)]
  }

  /** The worker has tried to send its request, or the cancellation failed unsent. */
  predicate Settled(s: State) {
    !StartedAfterCancel(s) && (!s.worker.Begin? || (s.caller.CancelFailed? && s.log == []))
  }

  lemma {:induction false} SettledStays(run: seq<State>, n: nat)
    requires Run(run) && Inv(run[0]) && Settled(run[0]) && n < |run|
    ensures Inv(run[n]) && Settled(run[n])
  {
    if n == 0 {
    } else {
      SettledStays(run, n - 1);
      assert Step(run[n - 1], run[n]);
      var a :| Enabled(run[n - 1], a) && run[n] == Apply(run[n - 1], a);
      StepKeeps(run[n - 1], a);
      SettledKept(run[n - 1], a);
    }
  }

  lemma SettledKept(s: State, a: Action)
    requires Inv(s) && Settled(s) && Enabled(s, a)
    ensures Settled(Apply(s, a))
  {
    var t := Apply(s, a);
    if a.SendStart? {
      assert t.log == [Start(s.id)];
    } else if t.log != s.log {
      assert t.log[|t.log| - 1] == Cancel(s.id);
    }
  }

  lemma Extend(run: seq<State>, a: Action) returns (longer: seq<State>)
    requires Run(run) && Enabled(run[|run| - 1], a)
    ensures Run(longer) && longer[0] == run[0] && longer[|longer| - 1] == Apply(run[|run| - 1], a)
  {
    var t := Apply(run[|run| - 1], a);
    longer := run + [t];
    assert Step(run[|run| - 1], t);
    forall m, n | 0 <= m < n < |longer| && n == m + 1 ensures Step(longer[m], longer[n]) {
      if n < |run| {
        assert Step(run[m], run[n]);
      }
    }
  }

  /** Before that, the caller can be told to cancel, send the cancellation, and the
      worker send its start afterwards. */
  lemma CancelOvertakes(s: State) returns (run: seq<State>)
    requires Inv(s) && !Settled(s)
    ensures Run(run) && run[0] == s && StartedAfterCancel(run[|run| - 1])
  {
    run := [s];
    if !StartedAfterCancel(s) {
      if s.log == [] {
        if s.caller.Waiting? {
          run := Extend(run, Wake);
        }
        if run[|run| - 1].caller.Loop? {
          run := Extend(run, SetCancel);
          run := Extend(run, Check);
        }
        run := Extend(run, SendCancel);
      }
      run := Extend(run, SendStart);
    }
  }

  /** No run ever starts the action after its cancellation was sent, exactly if the
      state is settled. */
  lemma NeverStartedAfterCancelExactlyWhen(s: State)
    requires Inv(s)
    ensures (forall run | Run(run) && run[0] == s :: !StartedAfterCancel(run[|run| - 1])) <==> Settled(s)
  {
    if Settled(s) {
      forall run | Run(run) && run[0] == s ensures !StartedAfterCancel(run[|run| - 1]) {
        SettledStays(run, |run| - 1);
      }
    } else {
      var run := CancelOvertakes(s);
    }
  }

  // ---- Progress ----

  /** From every state the caller can still get out, without being told to cancel. */
  lemma ExitIsReachable(s: State) returns (run: seq<State>)
    requires Inv(s)
    ensures Run(run) && run[0] == s && Exited(run[|run| - 1]) && run[|run| - 1].cancel == s.cancel
  {
    run := WorkerDone(s);
    if run[|run| - 1].caller.Loop? {
      run := Extend(run, Check);
    }
    if run[|run| - 1].caller.Waiting? {
      run := Extend(run, Wake);
    }
    if run[|run| - 1].caller.Woken? {
      run := Extend(run, Finish);
    }
    if run[|run| - 1].caller.Cancelling? {
      run := Extend(run, SendCancel);
    }
  }

  lemma WorkerDone(s: State) returns (run: seq<State>)
    requires Inv(s)
    ensures Run(run) && run[0] == s && run[|run| - 1].trigger
    ensures run[|run| - 1].caller == s.caller && run[|run| - 1].cancel == s.cancel
  {
    run := [s];
    if s.worker.Begin? {
      run := Extend(run, SendStart);
    }
    if run[|run| - 1].worker.Sent? {
      run := Extend(run, Reply(""));
    }
    if run[|run| - 1].worker.Stored? {
      run := Extend(run, SetTrigger);
    }
  }
}
