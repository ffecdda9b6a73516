/** That the confirmations of an unshared client come to be run while it is in use, not only when it
    is destroyed: the worker's pass, and the run from any state that hands everything over. */
module HandOffService {
  import opened Options
  import opened Sequences
  import opened HandOff
  import M = Telemetry

  // ----- A pass of the worker, undisturbed -----

  // The worker moves the list away, and everything it asks for succeeds.
  const MOVE: Choice := Choice(WorkerThread, None, [], true)

  ghost predicate AllWorker(choices: seq<Choice>) {
    forall i :: 0 <= i < |choices| ==> choices[i].who == WorkerThread
  }

  lemma {:induction false} RunsCompose(s: State, first: seq<Choice>, mid: State, second: seq<Choice>, t: State)
    requires IsRun(s, first, mid) && IsRun(mid, second, t)
    ensures IsRun(s, first + second, t)
    decreases |first|
  {
    hide Step, Ready, EventEnabled;
    if first == [] {
      assert first + second == second;
    } else {
      assert (first + second)[1..] == first[1..] + second;
      RunsCompose(Step(s, first[0]), first[1..], mid, second, t);
    }
  }

  lemma StepIsRun(s: State, x: Choice)
    requires Enabled(s, x)
    ensures IsRun(s, [x], Step(s, x))
  {
    hide Step, Ready, EventEnabled;
    var choices := [x];
    assert choices[1..] == [];
    assert IsRun(Step(s, x), [], Step(s, x));
  }

  lemma OneMore(s: State, choices: seq<Choice>, mid: State, x: Choice)
    requires IsRun(s, choices, mid) && Enabled(mid, x) && AllWorker(choices) && x.who == WorkerThread
    ensures IsRun(s, choices + [x], Step(mid, x)) && AllWorker(choices + [x])
  {
    hide Step, Ready, EventEnabled;
    StepIsRun(mid, x);
    RunsCompose(s, choices, mid, [x], Step(mid, x));
  }

  lemma WorkerCopies(s: State)
    requires s.worker == WorkIn
    ensures Enabled(s, MOVE) && Step(s, MOVE) == s.(worker := WorkCopied, batch := s.saved)
  {
    assert s.saved + [] == s.saved;
  }

  lemma WorkerEmpties(s: State)
    requires s.worker == WorkCopied
    ensures Enabled(s, MOVE) && Step(s, MOVE) == s.(worker := WorkUnlock(true), saved := [])
  {
  }

  lemma WorkerLetsGo(s: State, moved: bool)
    requires s.worker == WorkUnlock(moved)
    ensures Enabled(s, MOVE)
    ensures Step(s, MOVE) == s.(worker := if moved then DispatchLock else WorkLock, owner := None)
  {
    assert s.saved + [] == s.saved;
  }

  lemma DispatchTakes(s: State)
    requires s.worker == DispatchLock && s.owner == None
    ensures Enabled(s, MOVE) && Step(s, MOVE) == s.(worker := DispatchIn, owner := Some(WorkerThread))
  {
    assert s.saved + [] == s.saved;
  }

  lemma DispatchLetsGo(s: State)
    requires s.worker == DispatchIn
    ensures Enabled(s, MOVE) && Step(s, MOVE) == s.(worker := Dispatch, owner := None)
  {
    assert s.saved + [] == s.saved;
  }

  lemma DispatchRunsOne(s: State)
    requires s.worker == Dispatch
    ensures Enabled(s, MOVE)
    ensures s.batch == [] ==> Step(s, MOVE) == s.(worker := WorkLock)
    ensures s.batch != [] ==>
      Step(s, MOVE) == s.(batch := s.batch[1..], ran := s.ran + Confirms([s.batch[0]]))
  {
    hide Confirms;
    assert s.saved + [] == s.saved && Confirms([]) == [] by { NothingConfirmed(); }
  }

  lemma NothingConfirmed()
    ensures Confirms([]) == []
  {
  }

  // The whole batch is dispatched, from its head.
  lemma {:induction false} DispatchAlone(origin: State, choices: seq<Choice>, s: State)
    returns (more: seq<Choice>, after: State)
    requires IsRun(origin, choices, s) && AllWorker(choices) && s.worker == Dispatch
    ensures IsRun(origin, more, after) && AllWorker(more)
    ensures after == s.(worker := WorkLock, batch := [], ran := s.ran + Confirms(s.batch))
    decreases |s.batch|
  {
    hide Step, Ready, EventEnabled, IsRun, Confirms;
    DispatchRunsOne(s);
    OneMore(origin, choices, s, MOVE);
    var next := Step(s, MOVE);
    if s.batch == [] {
      NothingConfirmed();
      assert s.ran + [] == s.ran;
      more, after := choices + [MOVE], next;
    } else {
      FirstConfirmed(s.batch);
      Associate(s.ran, Confirms([s.batch[0]]), Confirms(s.batch[1..]));
      more, after := DispatchAlone(origin, choices + [MOVE], next);
    }
  }

  // A worker that is not disturbed moves the list away, runs the confirmations on it, all of them and
  // in their order, and is back at the head of its loop with nothing left to run.
  lemma WorkerPassAlone(s: State) returns (choices: seq<Choice>, after: State)
    requires s.worker == WorkIn && s.owner == Some(WorkerThread)
    ensures IsRun(s, choices, after) && AllWorker(choices)
    ensures after == s.(worker := WorkLock, owner := None, saved := [], batch := [], ran := s.ran + Confirms(s.saved))
  {
    hide Step, Ready, EventEnabled, IsRun, Confirms;
    NothingDone(s);
    WorkerCopies(s);
    OneMore(s, [], s, MOVE);
    var s1 := Step(s, MOVE);
    WorkerEmpties(s1);
    OneMore(s, [] + [MOVE], s1, MOVE);
    var s2 := Step(s1, MOVE);
    WorkerLetsGo(s2, true);
    OneMore(s, [] + [MOVE] + [MOVE], s2, MOVE);
    var s3 := Step(s2, MOVE);
    DispatchTakes(s3);
    OneMore(s, [] + [MOVE] + [MOVE] + [MOVE], s3, MOVE);
    var s4 := Step(s3, MOVE);
    DispatchLetsGo(s4);
    OneMore(s, [] + [MOVE] + [MOVE] + [MOVE] + [MOVE], s4, MOVE);
    choices, after := DispatchAlone(s, [] + [MOVE] + [MOVE] + [MOVE] + [MOVE] + [MOVE], Step(s4, MOVE));
  }

  lemma NothingDone(s: State)
    ensures IsRun(s, [], s) && AllWorker([])
  {
  }

  lemma MoveFails(s: State)
    requires s.worker == WorkIn
    ensures Enabled(s, Quiet(WorkerThread)) && Step(s, Quiet(WorkerThread)) == s.(worker := WorkUnlock(false))
  {
    assert s.saved + [] == s.saved;
  }

  // When the list cannot be moved, the pass runs nothing and the list waits for the next one.
  lemma PassWithoutMove(s: State) returns (choices: seq<Choice>)
    requires s.worker == WorkIn && s.owner == Some(WorkerThread)
    ensures IsRun(s, choices, s.(worker := WorkLock, owner := None)) && AllWorker(choices)
  {
    hide Step, Ready, EventEnabled, IsRun;
    NothingDone(s);
    MoveFails(s);
    OneMore(s, [], s, Quiet(WorkerThread));
    var s1 := Step(s, Quiet(WorkerThread));
    WorkerLetsGo(s1, false);
    OneMore(s, [] + [Quiet(WorkerThread)], s1, MOVE);
    choices := [] + [Quiet(WorkerThread)] + [MOVE];
  }

  lemma WorkerTakes(s: State)
    requires s.worker == WorkLock && s.owner == None
    ensures Enabled(s, MOVE) && Step(s, MOVE) == s.(worker := WorkTest, owner := Some(WorkerThread))
  {
    assert s.saved + [] == s.saved;
  }

  // A worker goes on to work unless it is told to stop; then it exits and lets go.
  lemma WorkerTests(s: State)
    requires s.worker == WorkTest
    ensures Enabled(s, MOVE)
    ensures s.stopThread ==> Step(s, MOVE) == s.(worker := Exited, owner := None)
    ensures !s.stopThread ==> Step(s, MOVE) == s.(worker := WorkIn)
  {
    assert s.saved + [] == s.saved;
  }

  // ----- Everything confirmed can be run -----

  // The worker runs and nobody is about to end it.
  ghost predicate Serving(s: State) {
    s.destroyer == Absent && s.worker != NotStarted && s.worker != Exited && !s.stopThread
  }

  function WholePass(saved: seq<Item>): nat {
    if saved == [] then 0 else 8 + |saved|
  }

  // Steps of the worker until nothing is pending.
  function ToHandOver(s: State): nat {
    match s.worker
    case WorkLock => WholePass(s.saved)
    case WorkTest => 7 + |s.saved|
    case WorkIn => 6 + |s.saved|
    case WorkCopied => 5 + |s.batch|
    case WorkUnlock(moved) => if moved then 4 + |s.batch| + WholePass(s.saved) else 1 + WholePass(s.saved)
    case DispatchLock => 3 + |s.batch| + WholePass(s.saved)
    case DispatchIn => 2 + |s.batch| + WholePass(s.saved)
    case Dispatch => 1 + |s.batch| + WholePass(s.saved)
    case NotStarted => 0
    case Exited => 0
  }

  // Steps of a caller until it lets go of the lock.
  function ToLetGo(s: State): nat {
    match s.owner
    case Some(SenderThread(t)) => if t in s.senders && s.senders[t].SendIn? then 2 else 1
    case _ => 0
  }

  // The worker steps unless it has to wait for a caller to let go of the lock.
  predicate WorkerWaits(s: State) {
    WorkerWants(s.worker) && s.owner.Some?
  }

  lemma WorkerAdvances(s: State)
    requires Serving(s) && !WorkerWaits(s) && (s.saved != [] || s.batch != [] || s.worker.WorkCopied?)
    requires s.worker.WorkCopied? ==> s.batch == s.saved
    requires s.batch != [] ==> HasBatch(s.worker)
    ensures Enabled(s, MOVE)
    ensures Serving(Step(s, MOVE)) && Step(s, MOVE).lower == s.lower && ToHandOver(Step(s, MOVE)) < ToHandOver(s)
  {
    hide Confirms;
    assert s.saved + [] == s.saved && Confirms([]) == [] by { NothingConfirmed(); }
  }

  lemma CallerLetsGo(s: State, t: Tid)
    requires Serving(s) && s.owner == Some(SenderThread(t)) && HoldsLock(s, SenderThread(t)) && WorkerWaits(s)
    ensures var x := Quiet(SenderThread(t));
            && Enabled(s, x) && Serving(Step(s, x)) && Step(s, x).lower == s.lower
            && ToHandOver(Step(s, x)) == ToHandOver(s) && ToLetGo(Step(s, x)) < ToLetGo(s)
  {
    hide Confirms;
    assert s.saved + [] == s.saved && Confirms([]) == [] by { NothingConfirmed(); }
  }

  lemma OwnerIsACaller(s: State)
    requires Locked(s) && Serving(s) && WorkerWaits(s)
    ensures s.owner.value.SenderThread? && HoldsLock(s, s.owner.value)
  {
    assert s.owner == Some(s.owner.value);
  }

  lemma AllRunWhen(s: State)
    requires Flows(s) && Serving(s) && s.saved == [] && s.batch == []
    ensures s.ran == s.lower.calls
  {
    assert s.ran + [] == s.ran;
  }

  lemma {:induction false} HandOverFrom(s: State) returns (more: seq<Choice>, t: State)
    requires Inv(s) && Serving(s)
    ensures IsRun(s, more, t) && t.lower == s.lower && t.ran == s.lower.calls
    decreases ToHandOver(s), ToLetGo(s)
  {
    hide Locked, Flows, M.Conserved, Step, Ready, EventEnabled, Serving, ToHandOver, ToLetGo;
    if s.saved == [] && s.batch == [] && !s.worker.WorkCopied? {
      AllRunWhen(s);
      more, t := [], s;
    } else {
      var x := MOVE;
      if WorkerWaits(s) {
        OwnerIsACaller(s);
        x := Quiet(s.owner.value);
        CallerLetsGo(s, s.owner.value.id);
      } else {
        CopiedIsSaved(s);
        WorkerAdvances(s);
      }
      StepKeepsInv(s, x);
      var rest;
      rest, t := HandOverFrom(Step(s, x));
      more := [x] + rest;
      assert more[1..] == rest;
    }
  }

  lemma CopiedIsSaved(s: State)
    requires Flows(s)
    ensures s.worker.WorkCopied? ==> s.batch == s.saved
  {
  }

  // From every reachable state in which the worker runs and is not told to stop, some run brings the
  // confirmations that have been run up to all those issued: none has to wait for the destruction.
  lemma ConfirmationsCanBeRun(initial: State, choices: seq<Choice>, s: State) returns (more: seq<Choice>, t: State)
    requires Initial(initial) && IsRun(initial, choices, s) && Serving(s)
    ensures IsRun(s, more, t) && t.lower == s.lower && t.ran == s.lower.calls
  {
    hide Inv, Serving;
    ReachableIsSafe(initial, choices, s);
    more, t := HandOverFrom(s);
  }

  // ----- What a caller and the transport do -----

  // An event below pushes the calls it makes.
  function Happens(s: State, who: Who, e: M.Event): Choice
    requires M.Enabled(s.lower, e)
  {
    var calls := M.Apply(s.lower, e).calls;
    Choice(who, Some(e), AsItems(if |s.lower.calls| <= |calls| then calls[|s.lower.calls|..] else []), false)
  }

  lemma EventHappens(s: State, who: Who, e: M.Event)
    requires MayHappen(s, who, e) && M.Enabled(s.lower, e)
    ensures EventEnabled(s, Happens(s, who, e))
    ensures NextLower(s, Happens(s, who, e)) == M.Apply(s.lower, e)
  {
    hide M.Apply, MayHappen, Confirms;
    M.EventTellsWhy(s.lower, e);
    var calls := M.Apply(s.lower, e).calls;
    assert s.lower.calls + calls[|s.lower.calls|..] == calls;
  }

  // While the worker holds the lock, the transport may do whatever it is able to, and what the events
  // confirm is pushed on the list.
  lemma WorkerLetsHappen(s: State, e: M.Event)
    requires s.worker == WorkIn && M.Enabled(s.lower, e) && !e.Send? && !e.SetMessageTimeout? && !e.Drain?
    ensures var x := Happens(s, WorkerThread, e);
            && Enabled(s, x)
            && Step(s, x) == s.(lower := M.Apply(s.lower, e), saved := s.saved + x.pushed)
            && s.lower.calls + Confirms(x.pushed) == M.Apply(s.lower, e).calls
  {
    hide M.Apply, M.Enabled, Confirms;
    EventHappens(s, WorkerThread, e);
  }

  lemma CallerBegins(s: State, t: Tid)
    requires t in s.senders && s.senders[t] == Idle && s.destroyer == Absent
    ensures var x := Quiet(SenderThread(t)); Enabled(s, x) && Step(s, x) == s.(senders := s.senders[t := SendStart])
  {
    assert s.saved + [] == s.saved;
  }

  // The first call creates the worker, which is then not told to stop; if that fails the call is over.
  lemma CallerStarts(s: State, t: Tid, ok: bool)
    requires t in s.senders && s.senders[t] == SendStart
    ensures var x := Choice(SenderThread(t), None, [], ok);
            && Enabled(s, x)
            && Step(s, x) == s.(senders := s.senders[t := if s.worker.NotStarted? && !ok then Idle else SendLock],
                                worker := if s.worker.NotStarted? && ok then WorkLock else s.worker,
                                stopThread := s.stopThread && !s.worker.NotStarted?)
  {
    assert s.saved + [] == s.saved;
  }

  lemma CallerTakes(s: State, t: Tid)
    requires t in s.senders && s.senders[t] == SendLock && s.owner == None
    ensures var x := Quiet(SenderThread(t));
            Enabled(s, x) && Step(s, x) == s.(senders := s.senders[t := SendIn], owner := Some(SenderThread(t)))
  {
    assert s.saved + [] == s.saved;
  }

  lemma NothingToldBySend(s: M.State, e: M.Event)
    requires M.Enabled(s, e) && e.Send?
    ensures M.Apply(s, e).calls == s.calls
  {
  }

  lemma CallerActs(s: State, t: Tid, e: M.Event)
    requires t in s.senders && s.senders[t] == SendIn && M.Enabled(s.lower, e) && e.Send?
    ensures var x := Choice(SenderThread(t), Some(e), [], false);
            Enabled(s, x) && Step(s, x) == s.(senders := s.senders[t := SendUnlock], lower := M.Apply(s.lower, e))
  {
    hide M.Apply, M.Enabled;
    NothingToldBySend(s.lower, e);
    assert s.saved + [] == s.saved && s.lower.calls + [] == s.lower.calls;
  }

  lemma CallerLeaves(s: State, t: Tid)
    requires t in s.senders && s.senders[t] == SendUnlock
    ensures var x := Quiet(SenderThread(t));
            Enabled(s, x) && Step(s, x) == s.(senders := s.senders[t := Idle], owner := None)
  {
    assert s.saved + [] == s.saved;
  }

  lemma SendStarts(s: State, t: Tid) returns (choices: seq<Choice>, after: State)
    requires t in s.senders && s.senders[t] == Idle && s.destroyer == Absent && s.owner == None
    ensures IsRun(s, choices, after)
    ensures after == s.(senders := s.senders[t := SendIn], owner := Some(SenderThread(t)),
                        worker := if s.worker.NotStarted? then WorkLock else s.worker,
                        stopThread := s.stopThread && !s.worker.NotStarted?)
  {
    hide Step, Ready, EventEnabled, IsRun;
    var quiet := Quiet(SenderThread(t));
    var starts := Choice(SenderThread(t), None, [], true);
    CallerBegins(s, t);
    StepIsRun(s, quiet);
    var s1 := Step(s, quiet);
    CallerStarts(s1, t, true);
    StepIsRun(s1, starts);
    RunsCompose(s, [quiet], s1, [starts], Step(s1, starts));
    var s2 := Step(s1, starts);
    CallerTakes(s2, t);
    StepIsRun(s2, quiet);
    RunsCompose(s, [quiet] + [starts], s2, [quiet], Step(s2, quiet));
    choices, after := [quiet] + [starts] + [quiet], Step(s2, quiet);
    assert s.senders[t := SendStart][t := SendLock][t := SendIn] == s.senders[t := SendIn];
  }

  // A caller that nothing disturbs has its message accepted below, under the lock, and the worker runs
  // afterwards.
  lemma SendAlone(s: State, t: Tid, e: M.Event) returns (choices: seq<Choice>, after: State)
    requires t in s.senders && s.senders[t] == Idle && s.destroyer == Absent && s.owner == None
    requires M.Enabled(s.lower, e) && e.Send?
    ensures IsRun(s, choices, after)
    ensures after == s.(lower := M.Apply(s.lower, e),
                        worker := if s.worker.NotStarted? then WorkLock else s.worker,
                        stopThread := s.stopThread && !s.worker.NotStarted?)
  {
    hide Step, Ready, EventEnabled, IsRun, M.Apply, M.Enabled;
    var first, s3 := SendStarts(s, t);
    var quiet := Quiet(SenderThread(t));
    var acts := Choice(SenderThread(t), Some(e), [], false);
    CallerActs(s3, t, e);
    StepIsRun(s3, acts);
    RunsCompose(s, first, s3, [acts], Step(s3, acts));
    var s4 := Step(s3, acts);
    CallerLeaves(s4, t);
    StepIsRun(s4, quiet);
    RunsCompose(s, first + [acts], s4, [quiet], Step(s4, quiet));
    choices, after := first + [acts] + [quiet], Step(s4, quiet);
    assert s.senders[t := SendIn][t := SendUnlock][t := Idle] == s.senders;
  }
}
