/** Whether a client registered with a shared transport has a worker that is told to run. */
module WorkerService {
  import opened Options
  import opened SharedTransport

  // ----- When the worker is told to run -----

  // Whether some step of a run is taken at a position: that of a start that has found no worker, or
  // that of a destruction of the transport about to set the stop flag.
  ghost predicate FindsNoWorker(s: State, steps: seq<(Tid, Choice)>)
    decreases |steps|
  {
    steps != [] && Enabled(s, steps[0].0, steps[0].1)
    && (s.threads[steps[0].0].StartClear? || FindsNoWorker(Step(s, steps[0].0, steps[0].1), steps[1..]))
  }

  ghost predicate DestroysTransport(s: State, steps: seq<(Tid, Choice)>)
    decreases |steps|
  {
    steps != [] && Enabled(s, steps[0].0, steps[0].1)
    && (s.threads[steps[0].0].TransportStopIn? || DestroysTransport(Step(s, steps[0].0, steps[0].1), steps[1..]))
  }

  // No end of the client is logged from one state to a later one.
  ghost predicate NotEnded(s: State, t: State, c: Client) {
    s.log <= t.log && forall i :: |s.log| <= i < |t.log| ==> t.log[i] != Ended(c)
  }

  lemma StepLogs(s: State, t: Tid, x: Choice)
    requires Enabled(s, t, x)
    ensures s.log <= Step(s, t, x).log
  {
    hide NextPc, NextOwners, NextClients, NextHandle, NextThreads;
  }

  lemma {:induction false} RunLogs(s: State, steps: seq<(Tid, Choice)>, t: State)
    requires IsRun(s, steps, t)
    ensures s.log <= t.log
    decreases |steps|
  {
    hide Step, Enabled;
    if steps != [] {
      StepLogs(s, steps[0].0, steps[0].1);
      RunLogs(Step(s, steps[0].0, steps[0].1), steps[1..], t);
    }
  }

  lemma Kept(clients: seq<Client>, c: Client, d: Client)
    requires c in clients && c != d
    ensures c in WithoutClient(clients, d)
  {
    var i, k := FindClient(clients, c), FindClient(clients, d);
    assert k < |clients| ==> WithoutClient(clients, d)[if i < k then i else i - 1] == c;
  }

  // One step while a client stays registered.
  lemma StepWhileRegistered(s: State, t: Tid, x: Choice, c: Client)
    requires Closing(s) && Enabled(s, t, x) && c in s.clients
    requires NotEnded(s, Step(s, t, x), c) && !s.threads[t].TransportStopIn?
    ensures c in Step(s, t, x).clients
    ensures Step(s, t, x).stopThread == (s.stopThread && !s.threads[t].StartClear?)
  {
    hide NextPc, NextOwners, NextHandle, NextThreads, WithoutClient;
    var pc := s.threads[t];
    assert Closes(s.log, s.clients, pc);
    if pc.EndErase? {
      assert Step(s, t, x).log[|s.log|] == Ended(pc.client);
      Kept(s.clients, c, pc.client);
    }
  }

  // Exactly when the worker is told to stop although a client is registered: over any part of a run
  // in which the client stays registered and the transport is not destroyed, the stop flag is set at
  // the end if and only if it was set at the beginning and no start has found the worker gone since.
  lemma {:induction false} ToldToStopWhen(s: State, steps: seq<(Tid, Choice)>, t: State, c: Client)
    requires Inv(s) && IsRun(s, steps, t) && c in s.clients && NotEnded(s, t, c)
    requires !DestroysTransport(s, steps)
    ensures c in t.clients
    ensures t.stopThread <==> s.stopThread && !FindsNoWorker(s, steps)
    decreases |steps|
  {
    hide Step, Enabled, Locked, Walking, Listed, Closing, Handled, Uploads;
    if steps != [] {
      var u, x := steps[0].0, steps[0].1;
      var next := Step(s, u, x);
      RunLogs(next, steps[1..], t);
      StepLogs(s, u, x);
      StepWhileRegistered(s, u, x, c);
      StepKeepsInv(s, u, x);
      ToldToStopWhen(next, steps[1..], t, c);
    }
  }

  // ----- A client that nobody serves -----

  lemma {:induction false} RunsCompose(s: State, first: seq<(Tid, Choice)>, mid: State, second: seq<(Tid, Choice)>, t: State)
    requires IsRun(s, first, mid) && IsRun(mid, second, t)
    ensures IsRun(s, first + second, t)
    decreases |first|
  {
    hide Step, Enabled;
    if first == [] {
      assert first + second == second;
    } else {
      assert (first + second)[1..] == first[1..] + second;
      RunsCompose(Step(s, first[0].0, first[0].1), first[1..], mid, second, t);
    }
  }

  lemma StepIsRun(s: State, t: Tid, x: Choice)
    requires Enabled(s, t, x)
    ensures IsRun(s, [(t, x)], Step(s, t, x))
  {
    hide Step, Enabled;
    var steps := [(t, x)];
    assert steps[1..] == [];
    assert IsRun(Step(s, t, x), [], Step(s, t, x));
  }

  lemma {:induction false} AloneIsRun(s: State, t: Tid, x: Choice, count: nat, after: State)
    returns (steps: seq<(Tid, Choice)>)
    requires Alone(s, t, x, count) == Some(after)
    ensures IsRun(s, steps, after)
  {
    hide Step, Enabled;
    if count == 0 {
      steps := [];
    } else {
      var before := Alone(s, t, x, count - 1).value;
      steps := AloneIsRun(s, t, x, count - 1, before);
      StepIsRun(before, t, x);
      RunsCompose(s, steps, before, [(t, x)], after);
      steps := steps + [(t, x)];
    }
  }

  // An idle thread makes a call.
  lemma BeginsCall(s: State, t: Tid, call: Call)
    requires t in s.threads && s.threads[t] == Idle
    ensures Enabled(s, t, Choice(call, true, 0, None))
    ensures Step(s, t, Choice(call, true, 0, None)) == s.(threads := s.threads[t := Begin(call)])
  {
  }

  lemma WorkerTakes(s: State, w: Tid)
    requires w in s.threads && s.threads[w] == WorkLock && s.owners == map[]
    ensures Enabled(s, w, NOTHING_CHOSEN)
    ensures Step(s, w, NOTHING_CHOSEN) == s.(threads := s.threads[w := WorkTest], owners := map[TransportLock := w])
  {
  }

  lemma WorkerLeaves(s: State, w: Tid)
    requires w in s.threads && s.threads[w] == WorkTest && s.owners == map[TransportLock := w] && s.stopThread
    ensures Enabled(s, w, NOTHING_CHOSEN)
    ensures Step(s, w, NOTHING_CHOSEN) == s.(threads := s.threads[w := Exited], owners := map[])
  {
  }

  // A worker told to stop exits.
  lemma WorkerExits(s: State, w: Tid) returns (steps: seq<(Tid, Choice)>)
    requires w in s.threads && s.threads[w] == WorkLock && s.owners == map[] && s.stopThread
    ensures IsRun(s, steps, s.(threads := s.threads[w := Exited]))
  {
    hide Step, Enabled, Alone;
    var x := NOTHING_CHOSEN;
    NoStep(s, w, x);
    WorkerTakes(s, w);
    OneMoreStep(s, w, x, 0, s);
    var mid := Step(s, w, x);
    WorkerLeaves(mid, w);
    OneMoreStep(s, w, x, 1, mid);
    Overwrites(s.threads, w, WorkTest, Exited);
    steps := AloneIsRun(s, w, x, 2, s.(threads := s.threads[w := Exited]));
  }

  lemma DestroyTakes(s: State, t: Tid, c: Client, ok: bool)
    requires t in s.threads && s.threads[t] == DestroyLock(c, ok) && s.owners == map[]
    ensures Enabled(s, t, NOTHING_CHOSEN)
    ensures Step(s, t, NOTHING_CHOSEN) == s.(threads := s.threads[t := DestroyIn(c, ok)], owners := map[TransportLock := t])
  {
  }

  lemma DestroyLetsGo(s: State, t: Tid, c: Client)
    requires t in s.threads && s.threads[t] == DestroyIn(c, true) && s.owners == map[TransportLock := t]
    ensures Enabled(s, t, NOTHING_CHOSEN)
    ensures Step(s, t, NOTHING_CHOSEN) == s.(threads := s.threads[t := JoinTest(c)], owners := map[])
  {
  }

  lemma DestroyFindsWorker(s: State, t: Tid, c: Client, w: Tid)
    requires t in s.threads && s.threads[t] == JoinTest(c) && s.workerHandle == Some(w)
    ensures Enabled(s, t, NOTHING_CHOSEN)
    ensures Step(s, t, NOTHING_CHOSEN) == s.(threads := s.threads[t := JoinWait(c, w)])
  {
  }

  lemma DestroyJoins(s: State, t: Tid, c: Client, w: Tid)
    requires t in s.threads && s.threads[t] == JoinWait(c, w) && HasExited(s, w)
    ensures Enabled(s, t, NOTHING_CHOSEN)
    ensures Step(s, t, NOTHING_CHOSEN) == s.(threads := s.threads[t := FinalLock(c)], workerHandle := None)
  {
  }

  lemma DestroyTakesAgain(s: State, t: Tid, c: Client)
    requires t in s.threads && s.threads[t] == FinalLock(c) && s.owners == map[]
    ensures Enabled(s, t, NOTHING_CHOSEN)
    ensures Step(s, t, NOTHING_CHOSEN) == s.(threads := s.threads[t := FinalIn(c)], owners := map[TransportLock := t])
  {
  }

  lemma DestroyCollectsNothing(s: State, t: Tid, c: Client)
    requires t in s.threads && s.threads[t] == FinalIn(c)
    ensures Enabled(s, t, NOTHING_CHOSEN)
    ensures Step(s, t, NOTHING_CHOSEN) == s.(threads := s.threads[t := FinalUnlock])
  {
  }

  lemma DestroyEnds(s: State, t: Tid)
    requires t in s.threads && s.threads[t] == FinalUnlock && s.owners == map[TransportLock := t]
    ensures Enabled(s, t, NOTHING_CHOSEN)
    ensures Step(s, t, NOTHING_CHOSEN) == s.(threads := s.threads[t := Idle], owners := map[])
  {
  }

  // A destruction told to join comes to wait for the worker the handle names.
  lemma WaitAlone(s: State, t: Tid, c: Client, w: Tid) returns (after: State)
    requires t in s.threads && s.threads[t] == DestroyLock(c, true) && s.owners == map[] && s.workerHandle == Some(w)
    ensures Alone(s, t, NOTHING_CHOSEN, 3) == Some(after)
    ensures after == s.(threads := s.threads[t := JoinWait(c, w)])
  {
    hide Step, Enabled, Alone;
    var x := NOTHING_CHOSEN;
    NoStep(s, t, x);
    DestroyTakes(s, t, c, true);
    OneMoreStep(s, t, x, 0, s);
    var s1 := Step(s, t, x);
    DestroyLetsGo(s1, t, c);
    OneMoreStep(s, t, x, 1, s1);
    var s2 := Step(s1, t, x);
    Overwrites(s.threads, t, DestroyIn(c, true), JoinTest(c));
    DestroyFindsWorker(s2, t, c, w);
    OneMoreStep(s, t, x, 2, s2);
    Overwrites(s.threads, t, JoinTest(c), JoinWait(c, w));
    after := Step(s2, t, x);
  }

  // And joins it once it has exited.
  lemma JoinAlone(s: State, t: Tid, c: Client, w: Tid) returns (after: State)
    requires t in s.threads && s.threads[t] == DestroyLock(c, true) && s.owners == map[]
    requires s.workerHandle == Some(w) && HasExited(s, w)
    ensures Alone(s, t, NOTHING_CHOSEN, 4) == Some(after)
    ensures after == s.(threads := s.threads[t := FinalLock(c)], workerHandle := None)
  {
    hide Step, Enabled, Alone;
    var waiting := WaitAlone(s, t, c, w);
    DestroyJoins(waiting, t, c, w);
    OneMoreStep(s, t, NOTHING_CHOSEN, 3, waiting);
    Overwrites(s.threads, t, JoinWait(c, w), FinalLock(c));
    after := Step(waiting, t, NOTHING_CHOSEN);
  }

  lemma FinishAlone(s: State, t: Tid, c: Client) returns (after: State)
    requires t in s.threads && s.threads[t] == FinalLock(c) && s.owners == map[]
    ensures Alone(s, t, NOTHING_CHOSEN, 3) == Some(after)
    ensures after == s.(threads := s.threads[t := Idle])
  {
    hide Step, Enabled, Alone;
    var x := NOTHING_CHOSEN;
    NoStep(s, t, x);
    DestroyTakesAgain(s, t, c);
    OneMoreStep(s, t, x, 0, s);
    var s1 := Step(s, t, x);
    DestroyCollectsNothing(s1, t, c);
    OneMoreStep(s, t, x, 1, s1);
    var s2 := Step(s1, t, x);
    Overwrites(s.threads, t, FinalIn(c), FinalUnlock);
    DestroyEnds(s2, t);
    OneMoreStep(s, t, x, 2, s2);
    Overwrites(s.threads, t, FinalUnlock, Idle);
    after := Step(s2, t, x);
  }

  lemma DestroyTailRuns(s: State, t: Tid, c: Client, w: Tid) returns (steps: seq<(Tid, Choice)>)
    requires t in s.threads && s.threads[t] == DestroyLock(c, true) && s.owners == map[]
    requires s.workerHandle == Some(w) && HasExited(s, w)
    ensures IsRun(s, steps, s.(threads := s.threads[t := Idle], workerHandle := None))
  {
    hide Step, Enabled, Alone, IsRun;
    var joined := JoinAlone(s, t, c, w);
    var first := AloneIsRun(s, t, NOTHING_CHOSEN, 4, joined);
    var after := FinishAlone(joined, t, c);
    var second := AloneIsRun(joined, t, NOTHING_CHOSEN, 3, after);
    RunsCompose(s, first, joined, second, after);
    Overwrites(s.threads, t, FinalLock(c), Idle);
    steps := first + second;
  }

  // A start of a client by an idle thread, undisturbed and successful.
  lemma StartRuns(s: State, t: Tid, c: Client, created: Tid) returns (steps: seq<(Tid, Choice)>, after: State)
    requires t in s.threads && s.threads[t] == Idle && s.owners == map[] && created !in s.threads
    ensures IsRun(s, steps, after)
    ensures after.workerHandle == (if s.workerHandle.None? then Some(created) else s.workerHandle)
    ensures after.stopThread == (s.stopThread && s.workerHandle.Some?)
    ensures after.clients == WithClient(s.clients, c) && after.owners == map[]
    ensures after.threads == (if s.workerHandle.None? then s.threads[created := WorkLock] else s.threads)[t := Idle]
  {
    hide Step, Enabled, Alone, IsRun, WithClient;
    BeginsCall(s, t, Start(c));
    StepIsRun(s, t, Choice(Start(c), true, 0, None));
    var begun := Step(s, t, Choice(Start(c), true, 0, None));
    var x := Choice(Serialized, true, created, None);
    var count;
    count, after := StartAlone(begun, t, c, x);
    var rest := AloneIsRun(begun, t, x, count, after);
    steps := [(t, Choice(Start(c), true, 0, None))] + rest;
    RunsCompose(s, [(t, Choice(Start(c), true, 0, None))], begun, rest, after);
    assert s.threads[t := StartTest(c)][t := Idle] == s.threads[t := Idle];
    assert s.threads[t := StartTest(c)][created := WorkLock][t := Idle] == s.threads[created := WorkLock][t := Idle];
  }

  // The end of the only client, or of one not on an empty list, undisturbed up to the point where its
  // signal has returned.
  lemma EndRuns(s: State, t: Tid, c: Client) returns (steps: seq<(Tid, Choice)>, after: State)
    requires t in s.threads && s.threads[t] == Idle && s.owners == map[] && s.workerHandle.Some?
    requires s.clients == [c] || s.clients == []
    ensures IsRun(s, steps, after)
    ensures after.threads == s.threads[t := DestroyLock(c, true)] && after.owners == map[]
    ensures after.clients == [] && after.stopThread && after.workerHandle == s.workerHandle
  {
    hide Step, Enabled, Alone, IsRun;
    BeginsCall(s, t, Destroy(c));
    StepIsRun(s, t, Choice(Destroy(c), true, 0, None));
    var begun := Step(s, t, Choice(Destroy(c), true, 0, None));
    var count;
    count, after := SignalAlone(begun, t, c);
    var rest := AloneIsRun(begun, t, NOTHING_CHOSEN, count, after);
    RunsCompose(s, [(t, Choice(Destroy(c), true, 0, None))], begun, rest, after);
    steps := [(t, Choice(Destroy(c), true, 0, None))] + rest;
    Overwrites(s.threads, t, EndLock(c), DestroyLock(c, true));
  }

  // A transport just created, and a user with two threads.
  const TWO_THREADS: State := State(map[0 := Idle, 1 := Idle], map[], [], None, true, {}, [])

  // Up to the moment when the second client is added: its start finds the handle of the worker that
  // the end of the first client has told to stop.
  lemma SecondClientAdded() returns (steps: seq<(Tid, Choice)>, s: State)
    ensures IsRun(TWO_THREADS, steps, s)
    ensures s.threads == map[0 := DestroyLock(10, true), 1 := Idle, 2 := WorkLock] && s.owners == map[]
    ensures s.clients == [20] && s.workerHandle == Some(2) && s.stopThread
  {
    hide Step, Enabled, IsRun;
    var first, started := StartRuns(TWO_THREADS, 0, 10, 2);
    var second, ended := EndRuns(started, 0, 10);
    RunsCompose(TWO_THREADS, first, started, second, ended);
    var third, added := StartRuns(ended, 1, 20, 3);
    RunsCompose(TWO_THREADS, first + second, ended, third, added);
    steps, s := first + second + third, added;
  }

  // A client whose start has returned and that nobody has ended can be left without any worker: every
  // call has returned, the worker has exited and been joined, and the client is still on the list.
  lemma ClientLeftUnserved() returns (steps: seq<(Tid, Choice)>, s: State)
    ensures Initial(TWO_THREADS) && IsRun(TWO_THREADS, steps, s)
    ensures s.clients == [20] && s.workerHandle == None && s.stopThread
    ensures forall t :: t in s.threads ==> s.threads[t] == Idle || s.threads[t] == Exited
  {
    hide Step, Enabled, IsRun;
    var first, added := SecondClientAdded();
    var second := WorkerExits(added, 2);
    var exited := added.(threads := added.threads[2 := Exited]);
    RunsCompose(TWO_THREADS, first, added, second, exited);
    var third := DestroyTailRuns(exited, 0, 10, 2);
    s := exited.(threads := exited.threads[0 := Idle], workerHandle := None);
    RunsCompose(TWO_THREADS, first + second, exited, third, s);
    steps := first + second + third;
  }

  // ----- A worker that two destructions join -----

  lemma WaitRuns(s: State, t: Tid, c: Client, w: Tid) returns (steps: seq<(Tid, Choice)>)
    requires t in s.threads && s.threads[t] == DestroyLock(c, true) && s.owners == map[] && s.workerHandle == Some(w)
    ensures IsRun(s, steps, s.(threads := s.threads[t := JoinWait(c, w)]))
  {
    hide Step, Enabled, Alone, IsRun;
    var after := WaitAlone(s, t, c, w);
    steps := AloneIsRun(s, t, NOTHING_CHOSEN, 3, after);
  }

  // Two clients end one after the other, the second never started; both ends answer "join".
  lemma BothToldToJoin() returns (steps: seq<(Tid, Choice)>, s: State)
    ensures IsRun(TWO_THREADS, steps, s)
    ensures s.threads == map[0 := DestroyLock(10, true), 1 := DestroyLock(20, true), 2 := WorkLock]
    ensures s.owners == map[] && s.workerHandle == Some(2) && s.stopThread
  {
    hide Step, Enabled, IsRun;
    var first, started := StartRuns(TWO_THREADS, 0, 10, 2);
    var second, ended := EndRuns(started, 0, 10);
    RunsCompose(TWO_THREADS, first, started, second, ended);
    var third, both := EndRuns(ended, 1, 20);
    RunsCompose(TWO_THREADS, first + second, ended, third, both);
    steps, s := first + second + third, both;
  }

  lemma BothCanJoin(s: State)
    requires s.threads == map[0 := JoinWait(10, 2), 1 := JoinWait(20, 2), 2 := Exited]
    ensures Enabled(s, 0, NOTHING_CHOSEN) && Enabled(Step(s, 0, NOTHING_CHOSEN), 1, NOTHING_CHOSEN)
  {
    hide Step, Enabled;
    DestroyJoins(s, 0, 10, 2);
    DestroyJoins(Step(s, 0, NOTHING_CHOSEN), 1, 20, 2);
  }

  // So two destructions can come to wait for one worker, and each then joins it.
  lemma WorkerJoinedTwice() returns (steps: seq<(Tid, Choice)>, s: State)
    ensures Initial(TWO_THREADS) && IsRun(TWO_THREADS, steps, s)
    ensures s.threads == map[0 := JoinWait(10, 2), 1 := JoinWait(20, 2), 2 := Exited]
    ensures Enabled(s, 0, NOTHING_CHOSEN) && Enabled(Step(s, 0, NOTHING_CHOSEN), 1, NOTHING_CHOSEN)
  {
    hide IsRun, Step, Enabled;
    var first, both := BothToldToJoin();
    var second, exited := TwoWait(both);
    RunsCompose(TWO_THREADS, first, both, second, exited);
    steps, s := first + second, exited;
    BothCanJoin(s);
  }

  lemma TwoWait(s: State) returns (steps: seq<(Tid, Choice)>, after: State)
    requires s.threads == map[0 := DestroyLock(10, true), 1 := DestroyLock(20, true), 2 := WorkLock]
    requires s.owners == map[] && s.workerHandle == Some(2) && s.stopThread
    ensures IsRun(s, steps, after)
    ensures after.threads == map[0 := JoinWait(10, 2), 1 := JoinWait(20, 2), 2 := Exited]
  {
    hide Step, Enabled, IsRun;
    var first := WaitRuns(s, 0, 10, 2);
    var one := s.(threads := s.threads[0 := JoinWait(10, 2)]);
    var second := WaitRuns(one, 1, 20, 2);
    var two := one.(threads := one.threads[1 := JoinWait(20, 2)]);
    RunsCompose(s, first, one, second, two);
    var third := WorkerExits(two, 2);
    after := two.(threads := two.threads[2 := Exited]);
    RunsCompose(s, first + second, two, third, after);
    steps := first + second + third;
  }

  // A worker is joined by those threads, and only those, that have found the handle naming it: no other
  // step makes a thread wait for a worker. One such find means one join.
  lemma JoinersFindTheHandle(s: State, t: Tid, x: Choice, u: Tid, w: Tid)
    requires Enabled(s, t, x) && u in s.threads && !(Joins(s.threads[u]) && s.threads[u].worker == w)
    requires u in Step(s, t, x).threads && Joins(Step(s, t, x).threads[u]) && Step(s, t, x).threads[u].worker == w
    ensures u == t && s.workerHandle == Some(w)
  {
    hide NextPc, NextOwners, NextClients, NextHandle, NextLog;
    if u == t {
      JoinersFoundAHandle(s, s.threads[t], x);
    }
  }
}
