/** The calls on a shared transport, each made by one thread that nothing disturbs, from its first
    step to its last; and what a destruction that joins the worker has done before. */
module TransportCalls {
  import opened Options
  import opened SharedTransport
  import opened WorkerService

  // ----- A client destroyed while the worker is still needed -----

  lemma DestroySkipsJoin(s: State, t: Tid, c: Client)
    requires t in s.threads && s.threads[t] == DestroyIn(c, false) && s.owners == map[TransportLock := t]
    ensures Enabled(s, t, NOTHING_CHOSEN)
    ensures Step(s, t, NOTHING_CHOSEN) == s.(threads := s.threads[t := FinalLock(c)], owners := map[])
  {
  }

  // A destruction that was not told to join ends without waiting for any thread: the handle, the stop
  // flag, the list and every other thread are as they were.
  lemma DestroyUnjoined(s: State, t: Tid, c: Client) returns (after: State)
    requires t in s.threads && s.threads[t] == DestroyLock(c, false) && s.owners == map[]
    ensures Alone(s, t, NOTHING_CHOSEN, 5) == Some(after)
    ensures after == s.(threads := s.threads[t := Idle])
  {
    hide Step, Enabled, Alone;
    var x := NOTHING_CHOSEN;
    NoStep(s, t, x);
    DestroyTakes(s, t, c, false);
    OneMoreStep(s, t, x, 0, s);
    var s1 := Step(s, t, x);
    DestroySkipsJoin(s1, t, c);
    OneMoreStep(s, t, x, 1, s1);
    var s2 := Step(s1, t, x);
    Overwrites(s.threads, t, DestroyIn(c, false), FinalLock(c));
    after := FinishFrom(s, s2, t, c, 2);
    Overwrites(s.threads, t, FinalLock(c), Idle);
  }

  // The last part of a destruction, after other steps.
  lemma FinishFrom(origin: State, s: State, t: Tid, c: Client, count: nat) returns (after: State)
    requires t in s.threads && s.threads[t] == FinalLock(c) && s.owners == map[]
    ensures Alone(origin, t, NOTHING_CHOSEN, count) == Some(s) ==>
      Alone(origin, t, NOTHING_CHOSEN, count + 3) == Some(after)
    ensures after == s.(threads := s.threads[t := Idle])
  {
    hide Step, Enabled, Alone;
    var x := NOTHING_CHOSEN;
    DestroyTakesAgain(s, t, c);
    OneMoreStep(origin, t, x, count, s);
    var s1 := Step(s, t, x);
    DestroyCollectsNothing(s1, t, c);
    OneMoreStep(origin, t, x, count + 1, s1);
    var s2 := Step(s1, t, x);
    Overwrites(s.threads, t, FinalIn(c), FinalUnlock);
    DestroyEnds(s2, t);
    OneMoreStep(origin, t, x, count + 2, s2);
    Overwrites(s.threads, t, FinalUnlock, Idle);
    after := Step(s2, t, x);
  }

  // So a client is destroyed, from the call to its return, without its destruction waiting for the
  // worker, when other clients are still registered or there is no worker.
  lemma DestroyedWhileOthersStay(s: State, t: Tid, c: Client) returns (steps: seq<(Tid, Choice)>, after: State)
    requires t in s.threads && s.threads[t] == Idle && s.owners == map[]
    requires WithoutClient(s.clients, c) != [] || s.workerHandle.None?
    ensures IsRun(s, steps, after) && forall i :: 0 <= i < |steps| ==> steps[i].0 == t
    ensures after == s.(clients := WithoutClient(s.clients, c), log := s.log + [Ended(c), Returned(c)])
  {
    hide Step, Enabled, Alone, IsRun, WithoutClient;
    var call := Choice(Destroy(c), true, 0, None);
    BeginsCall(s, t, Destroy(c));
    StepIsRun(s, t, call);
    var begun := Step(s, t, call);
    var count, signalled := SignalAlone(begun, t, c);
    Overwrites(s.threads, t, EndLock(c), DestroyLock(c, false));
    var first := AloneSteps(begun, t, NOTHING_CHOSEN, count, signalled);
    after := DestroyUnjoined(signalled, t, c);
    Overwrites(s.threads, t, DestroyLock(c, false), Idle);
    assert s.threads[t := Idle] == s.threads;
    var second := AloneSteps(signalled, t, NOTHING_CHOSEN, 5, after);
    RunsCompose(s, [(t, call)], begun, first, signalled);
    RunsCompose(s, [(t, call)] + first, signalled, second, after);
    steps := [(t, call)] + first + second;
  }

  // The steps of one thread, as a run.
  lemma {:induction false} AloneSteps(s: State, t: Tid, x: Choice, count: nat, after: State)
    returns (steps: seq<(Tid, Choice)>)
    requires Alone(s, t, x, count) == Some(after)
    ensures IsRun(s, steps, after) && forall i :: 0 <= i < |steps| ==> steps[i].0 == t
  {
    hide Step, Enabled, IsRun;
    if count == 0 {
      steps := [];
      assert IsRun(s, steps, after) by { NoStepIsRun(s); }
    } else {
      var before := Alone(s, t, x, count - 1).value;
      steps := AloneSteps(s, t, x, count - 1, before);
      StepIsRun(before, t, x);
      RunsCompose(s, steps, before, [(t, x)], after);
      steps := steps + [(t, x)];
    }
  }

  lemma NoStepIsRun(s: State)
    ensures IsRun(s, [], s)
  {
  }

  // ----- Who joins the worker has stopped it -----

  // From the moment when the destruction of a client has set the stop flag, until it has joined.
  predicate PastStop(pc: Pc, c: Client) {
    || pc == EndUnlock(c, true) || pc == DestroyLock(c, true) || pc == DestroyIn(c, true) || pc == JoinTest(c)
    || (pc.JoinWait? && pc.client == c)
  }

  // A thread is there throughout a run.
  ghost predicate StaysPastStop(s: State, steps: seq<(Tid, Choice)>, t: Tid, c: Client)
    decreases |steps|
  {
    && t in s.threads && PastStop(s.threads[t], c)
    && (steps != [] ==> Enabled(s, steps[0].0, steps[0].1)
                        && StaysPastStop(Step(s, steps[0].0, steps[0].1), steps[1..], t, c))
  }

  lemma OnlyTheStopLeadsThere(s: State, pc: Pc, x: Choice, c: Client)
    requires PastStop(NextPc(s, pc, x), c) && !PastStop(pc, c)
    ensures pc == StopIn(c)
  {
    hide NextCall, NextWork, NextOnRecord;
    if Calling(pc) {
      CallsDoNotJoin(s, pc, x);
    } else if Working(pc) {
      WorkersDoNotJoin(s, pc, x);
    } else if OnRecord(pc) {
      CollectorsDoNotJoin(s, pc);
    }
  }

  // The positions of a destruction up to its join.
  predicate BeforeTheJoin(pc: Pc) {
    pc.EndUnlock? || pc.DestroyLock? || pc.DestroyIn? || pc.JoinTest? || pc.JoinWait?
  }

  lemma CallsDoNotJoin(s: State, pc: Pc, x: Choice)
    requires Calling(pc)
    ensures !BeforeTheJoin(NextCall(s, pc, x))
  {
  }

  lemma WorkersDoNotJoin(s: State, pc: Pc, x: Choice)
    requires Working(pc)
    ensures !BeforeTheJoin(NextWork(s, pc, x))
  {
  }

  lemma CollectorsDoNotJoin(s: State, pc: Pc)
    requires OnRecord(pc)
    ensures !BeforeTheJoin(NextOnRecord(s, pc))
  {
  }

  lemma ComesPastStop(s: State, u: Tid, x: Choice, t: Tid, c: Client)
    requires Closing(s) && Enabled(s, u, x)
    requires t in Step(s, u, x).threads && PastStop(Step(s, u, x).threads[t], c)
    requires !(t in s.threads && PastStop(s.threads[t], c))
    ensures u == t && t in s.threads && s.threads[t] == StopIn(c) && s.clients == [] && Step(s, u, x).stopThread
  {
    hide NextPc, PastStop, NextOwners, NextClients, NextHandle, NextLog;
    CreatedAreNotThere(s.threads[u], x, c);
    assert u == t;
    OnlyTheStopLeadsThere(s, s.threads[t], x, c);
    assert Closes(s.log, s.clients, s.threads[t]);
  }

  lemma CreatedAreNotThere(pc: Pc, x: Choice, c: Client)
    ensures !PastStop(CreatedPc(pc, x), c)
  {
  }

  lemma {:induction false} StoppedBefore(s: State, steps: seq<(Tid, Choice)>, e: State, t: Tid, c: Client)
    returns (i: nat, m: State)
    requires Inv(s) && IsRun(s, steps, e) && t in e.threads && PastStop(e.threads[t], c)
    requires !StaysPastStop(s, steps, t, c)
    ensures i < |steps| && IsRun(s, steps[..i], m) && steps[i].0 == t && Enabled(m, t, steps[i].1)
    ensures t in m.threads && m.threads[t] == StopIn(c) && m.clients == []
    ensures var stopped := Step(m, t, steps[i].1);
            stopped.stopThread && IsRun(stopped, steps[i + 1..], e) && StaysPastStop(stopped, steps[i + 1..], t, c)
    decreases |steps|
  {
    hide Inv, Locked, Walking, Listed, Handled, Uploads, Step, Enabled, PastStop, Closing;
    var u, x := steps[0].0, steps[0].1;
    var next := Step(s, u, x);
    if StaysPastStop(next, steps[1..], t, c) {
      InvCloses(s);
      ComesPastStop(s, u, x, t, c);
      i, m := 0, s;
      assert steps[..0] == [];
    } else {
      StepKeepsInv(s, u, x);
      i, m := StoppedBefore(next, steps[1..], e, t, c);
      i := i + 1;
      assert steps[..i][1..] == steps[1..][..i - 1] && steps[i..][1..] == steps[1..][i - 1..][1..];
      assert steps[i + 1..] == steps[1..][i..];
    }
  }

  lemma InvCloses(s: State)
    requires Inv(s)
    ensures Closing(s)
  {
  }

  // A thread that waits for a worker in the destruction of a client has, in that destruction, found no
  // client registered and set the stop flag: the step is in the run, and the thread has not left the
  // destruction since.
  lemma JoinerStopped(initial: State, steps: seq<(Tid, Choice)>, s: State, t: Tid)
    returns (i: nat, m: State)
    requires Initial(initial) && IsRun(initial, steps, s)
    requires t in s.threads && s.threads[t].JoinWait?
    ensures i < |steps| && IsRun(initial, steps[..i], m) && steps[i].0 == t && Enabled(m, t, steps[i].1)
    ensures t in m.threads && m.threads[t] == StopIn(s.threads[t].client) && m.clients == []
    ensures var stopped := Step(m, t, steps[i].1);
            && stopped.stopThread && IsRun(stopped, steps[i + 1..], s)
            && StaysPastStop(stopped, steps[i + 1..], t, s.threads[t].client)
  {
    hide Inv, Step, Enabled;
    InitialIsSafe(initial);
    i, m := StoppedBefore(initial, steps, s, t, s.threads[t].client);
  }

  // ----- The destruction of the transport -----

  lemma TransportTakes(s: State, t: Tid)
    requires t in s.threads && s.threads[t] == TransportStopLock && s.owners == map[]
    ensures Enabled(s, t, NOTHING_CHOSEN)
    ensures Step(s, t, NOTHING_CHOSEN)
         == s.(threads := s.threads[t := TransportStopIn], owners := map[TransportLock := t])
  {
  }

  lemma TransportStops(s: State, t: Tid)
    requires t in s.threads && s.threads[t] == TransportStopIn && s.owners == map[TransportLock := t]
    ensures Enabled(s, t, NOTHING_CHOSEN)
    ensures Step(s, t, NOTHING_CHOSEN)
         == s.(threads := s.threads[t := TransportJoinTest], owners := map[], stopThread := true)
  {
  }

  lemma TransportTests(s: State, t: Tid)
    requires t in s.threads && s.threads[t] == TransportJoinTest
    ensures Enabled(s, t, NOTHING_CHOSEN)
    ensures s.workerHandle.None? ==> Step(s, t, NOTHING_CHOSEN) == s.(threads := s.threads[t := Idle])
    ensures s.workerHandle.Some? ==>
      Step(s, t, NOTHING_CHOSEN) == s.(threads := s.threads[t := TransportJoinWait(s.workerHandle.value)])
  {
  }

  lemma TransportJoins(s: State, t: Tid, w: Tid)
    requires t in s.threads && s.threads[t] == TransportJoinWait(w)
    ensures Enabled(s, t, NOTHING_CHOSEN) <==> HasExited(s, w)
    ensures HasExited(s, w) ==>
      Step(s, t, NOTHING_CHOSEN) == s.(threads := s.threads[t := Idle], workerHandle := None)
  {
  }

  // The destruction of the transport sets the stop flag, whatever clients there are, and then waits for
  // the worker that the handle names; without a worker it is done.
  lemma TransportDestroyAlone(s: State, t: Tid) returns (after: State)
    requires t in s.threads && s.threads[t] == TransportStopLock && s.owners == map[]
    ensures Alone(s, t, NOTHING_CHOSEN, 3) == Some(after)
    ensures after == s.(stopThread := true, threads :=
      s.threads[t := if s.workerHandle.Some? then TransportJoinWait(s.workerHandle.value) else Idle])
  {
    hide Step, Enabled, Alone;
    var x := NOTHING_CHOSEN;
    NoStep(s, t, x);
    TransportTakes(s, t);
    OneMoreStep(s, t, x, 0, s);
    var s1 := Step(s, t, x);
    TransportStops(s1, t);
    OneMoreStep(s, t, x, 1, s1);
    var s2 := Step(s1, t, x);
    Overwrites(s.threads, t, TransportStopIn, TransportJoinTest);
    TransportTests(s2, t);
    OneMoreStep(s, t, x, 2, s2);
    after := Step(s2, t, x);
    Overwrites(s.threads, t, TransportJoinTest, after.threads[t]);
  }

  // A user destroys the transport while its worker is at the head of its loop: the worker leaves, is
  // joined, and the handle is empty.
  lemma TransportDestroyRuns(s: State, t: Tid, w: Tid) returns (steps: seq<(Tid, Choice)>, after: State)
    requires t in s.threads && s.threads[t] == Idle && s.owners == map[] && t != w
    requires s.workerHandle == Some(w) && w in s.threads && s.threads[w] == WorkLock
    ensures IsRun(s, steps, after)
    ensures after == s.(threads := s.threads[w := Exited], workerHandle := None, stopThread := true)
  {
    hide Step, Enabled, Alone, IsRun;
    var call := Choice(DestroyTransport, true, 0, None);
    BeginsCall(s, t, DestroyTransport);
    StepIsRun(s, t, call);
    var begun := Step(s, t, call);
    var waiting := TransportDestroyAlone(begun, t);
    Overwrites(s.threads, t, TransportStopLock, TransportJoinWait(w));
    var first := AloneSteps(begun, t, NOTHING_CHOSEN, 3, waiting);
    var second := WorkerExits(waiting, w);
    var exited := waiting.(threads := waiting.threads[w := Exited]);
    TransportJoins(exited, t, w);
    after := Step(exited, t, NOTHING_CHOSEN);
    StepIsRun(exited, t, NOTHING_CHOSEN);
    assert s.threads[t := TransportJoinWait(w)][w := Exited][t := Idle] == s.threads[w := Exited];
    RunsCompose(s, [(t, call)], begun, first, waiting);
    RunsCompose(s, [(t, call)] + first, waiting, second, exited);
    RunsCompose(s, [(t, call)] + first + second, exited, [(t, NOTHING_CHOSEN)], after);
    steps := [(t, call)] + first + second + [(t, NOTHING_CHOSEN)];
  }

  // ----- A call under the client's lock -----

  lemma CallTakes(s: State, t: Tid, x: Choice)
    requires t in s.threads && s.threads[t] == CallLock && s.owners == map[] && x.upload == None
    ensures Enabled(s, t, x)
    ensures Step(s, t, x) == s.(threads := s.threads[t := CallIn], owners := map[TransportLock := t])
  {
  }

  lemma CallActs(s: State, t: Tid, x: Choice)
    requires t in s.threads && s.threads[t] == CallIn && x.created !in s.threads && x.upload == None
    ensures Enabled(s, t, x)
    ensures Step(s, t, x) == s.(threads :=
      if x.ok then s.threads[t := CallUnlock][x.created := Uploading(x.created)] else s.threads[t := CallUnlock])
  {
  }

  lemma CallLetsGo(s: State, t: Tid, x: Choice)
    requires t in s.threads && s.threads[t] == CallUnlock && s.owners == map[TransportLock := t] && x.upload == None
    ensures Enabled(s, t, x)
    ensures Step(s, t, x) == s.(threads := s.threads[t := Idle], owners := map[])
  {
  }

  // A call takes the lock, may create an upload thread, which starts to upload, and lets go.
  lemma CallAlone(s: State, t: Tid, x: Choice) returns (after: State)
    requires t in s.threads && s.threads[t] == CallLock && s.owners == map[]
    requires x.created !in s.threads && x.upload == None
    ensures Alone(s, t, x, 3) == Some(after)
    ensures after == s.(threads :=
      (if x.ok then s.threads[x.created := Uploading(x.created)] else s.threads)[t := Idle])
  {
    hide Step, Enabled, Alone;
    NoStep(s, t, x);
    CallTakes(s, t, x);
    OneMoreStep(s, t, x, 0, s);
    var s1 := Step(s, t, x);
    CallActs(s1, t, x);
    OneMoreStep(s, t, x, 1, s1);
    var s2 := Step(s1, t, x);
    Overwrites(s.threads, t, CallIn, CallUnlock);
    CallLetsGo(s2, t, x);
    OneMoreStep(s, t, x, 2, s2);
    after := Step(s2, t, x);
    Overwrites(s.threads, t, CallUnlock, Idle);
    if x.ok {
      assert s.threads[t := CallUnlock][x.created := Uploading(x.created)][t := Idle]
          == s.threads[x.created := Uploading(x.created)][t := Idle];
    }
  }

  // ----- A round of the worker -----

  lemma WorkerGoesOn(s: State, w: Tid)
    requires w in s.threads && s.threads[w] == WorkTest && s.owners == map[TransportLock := w] && !s.stopThread
    ensures Enabled(s, w, NOTHING_CHOSEN)
    ensures Step(s, w, NOTHING_CHOSEN) == s.(threads := s.threads[w := WorkLockClients], owners := map[])
  {
  }

  lemma WorkerReadsSize(s: State, w: Tid)
    requires w in s.threads && s.threads[w] == WorkLockClients && s.owners == map[]
    ensures Enabled(s, w, NOTHING_CHOSEN)
    ensures Step(s, w, NOTHING_CHOSEN)
         == s.(threads := s.threads[w := WorkNext(|s.clients|, 0)], owners := map[ClientsLock := w])
  {
  }

  lemma WorkerStartsOver(s: State, w: Tid, n: nat)
    requires w in s.threads && s.threads[w] == WorkNext(n, n) && s.owners == map[ClientsLock := w]
    ensures Enabled(s, w, NOTHING_CHOSEN)
    ensures Step(s, w, NOTHING_CHOSEN) == s.(threads := s.threads[w := WorkLock], owners := map[])
  {
  }

  lemma RoundBegins(s: State, w: Tid) returns (after: State)
    requires w in s.threads && s.threads[w] == WorkLock && s.owners == map[] && !s.stopThread
    ensures Alone(s, w, NOTHING_CHOSEN, 3) == Some(after)
    ensures after == s.(threads := s.threads[w := WorkNext(|s.clients|, 0)], owners := map[ClientsLock := w])
  {
    hide Step, Enabled, Alone;
    var x := NOTHING_CHOSEN;
    NoStep(s, w, x);
    WorkerTakes(s, w);
    OneMoreStep(s, w, x, 0, s);
    var s1 := Step(s, w, x);
    WorkerGoesOn(s1, w);
    OneMoreStep(s, w, x, 1, s1);
    var s2 := Step(s1, w, x);
    Overwrites(s.threads, w, WorkTest, WorkLockClients);
    WorkerReadsSize(s2, w);
    OneMoreStep(s, w, x, 2, s2);
    after := Step(s2, w, x);
    Overwrites(s.threads, w, WorkLockClients, WorkNext(|s.clients|, 0));
  }

  // A worker that is not told to stop works on every registered client, once, in the order of the
  // list, and is back at the head of its loop.
  lemma RoundAlone(s: State, w: Tid) returns (count: nat, after: State)
    requires w in s.threads && s.threads[w] == WorkLock && s.owners == map[] && !s.stopThread
    ensures Alone(s, w, NOTHING_CHOSEN, count) == Some(after)
    ensures after == s.(log := s.log + WorkEntries(s.clients))
  {
    hide Step, Enabled, Alone, WorkEntries;
    var n := |s.clients|;
    var begun := RoundBegins(s, w);
    assert s.clients[0..] == s.clients;
    var walked;
    count, walked := PassAlone(s, begun, w, 3, 0);
    Overwrites(s.threads, w, WorkNext(n, 0), WorkNext(n, n));
    WorkerStartsOver(walked, w, n);
    OneMoreStep(s, w, NOTHING_CHOSEN, count, walked);
    Overwrites(s.threads, w, WorkNext(n, n), WorkLock);
    assert s.threads[w := WorkLock] == s.threads;
    count, after := count + 1, Step(walked, w, NOTHING_CHOSEN);
  }

  // Work entries name the clients, in order.
  lemma {:induction false} WorkEntriesAre(clients: seq<Client>)
    ensures |WorkEntries(clients)| == |clients|
    ensures forall i :: 0 <= i < |clients| ==> WorkEntries(clients)[i] == Work(clients[i])
  {
    if clients != [] {
      WorkEntriesAre(clients[1..]);
    }
  }

  const LOCKS: Choice := Choice(Serialized, true, 0, None)

  lemma LocksInsideOnce(s: State, w: Tid, spot: Spot) returns (held: State)
    requires w in s.threads && s.threads[w] == InClient(spot) && TransportLock !in s.owners
    ensures Alone(s, w, LOCKS, 2) == Some(held)
    ensures held == s.(threads := s.threads[w := InClientIn(spot)], owners := s.owners[TransportLock := w])
  {
    hide Step, Enabled, Alone;
    NoStep(s, w, LOCKS);
    InsideWants(s, w, spot);
    OneMoreStep(s, w, LOCKS, 0, s);
    var s1 := Step(s, w, LOCKS);
    InsideTakes(s1, w, spot);
    OneMoreStep(s, w, LOCKS, 1, s1);
    Overwrites(s.threads, w, InClientLock(spot), InClientIn(spot));
    held := Step(s1, w, LOCKS);
  }

  // Inside a client, the worker takes and releases that client's lock as often as it needs to.
  lemma LocksInside(s: State, w: Tid, spot: Spot) returns (held: State)
    requires w in s.threads && s.threads[w] == InClient(spot) && TransportLock !in s.owners
    ensures Alone(s, w, LOCKS, 2) == Some(held) && Alone(s, w, LOCKS, 3) == Some(s)
    ensures held == s.(threads := s.threads[w := InClientIn(spot)], owners := s.owners[TransportLock := w])
  {
    hide Step, Enabled, Alone;
    held := LocksInsideOnce(s, w, spot);
    InsideLetsGo(held, w, spot);
    OneMoreStep(s, w, LOCKS, 2, held);
    Overwrites(s.threads, w, InClientIn(spot), InClient(spot));
    assert s.threads[w := InClient(spot)] == s.threads;
    assert s.owners[TransportLock := w] - {TransportLock} == s.owners;
  }

  lemma InsideWants(s: State, w: Tid, spot: Spot)
    requires w in s.threads && s.threads[w] == InClient(spot)
    ensures Enabled(s, w, LOCKS) && Step(s, w, LOCKS) == s.(threads := s.threads[w := InClientLock(spot)])
  {
  }

  lemma InsideTakes(s: State, w: Tid, spot: Spot)
    requires w in s.threads && s.threads[w] == InClientLock(spot) && TransportLock !in s.owners
    ensures Enabled(s, w, LOCKS)
    ensures Step(s, w, LOCKS)
         == s.(threads := s.threads[w := InClientIn(spot)], owners := s.owners[TransportLock := w])
  {
  }

  lemma InsideLetsGo(s: State, w: Tid, spot: Spot)
    requires w in s.threads && s.threads[w] == InClientIn(spot)
    ensures Enabled(s, w, LOCKS)
    ensures Step(s, w, LOCKS)
         == s.(threads := s.threads[w := InClient(spot)], owners := s.owners - {TransportLock})
  {
  }

  // ----- Upload threads and their collection -----

  lemma UploadEnds(s: State, u: Tid)
    requires u in s.threads && s.threads[u] == Uploading(u)
    ensures Enabled(s, u, NOTHING_CHOSEN)
    ensures Step(s, u, NOTHING_CHOSEN) == s.(threads := s.threads[u := MarkLock(u)])
  {
  }

  lemma UploadTakes(s: State, u: Tid)
    requires u in s.threads && s.threads[u] == MarkLock(u) && GarbageLock(u) !in s.owners
    ensures Enabled(s, u, NOTHING_CHOSEN)
    ensures Step(s, u, NOTHING_CHOSEN)
         == s.(threads := s.threads[u := MarkIn(u)], owners := s.owners[GarbageLock(u) := u])
  {
  }

  lemma UploadMarks(s: State, u: Tid)
    requires u in s.threads && s.threads[u] == MarkIn(u)
    ensures Enabled(s, u, NOTHING_CHOSEN)
    ensures Step(s, u, NOTHING_CHOSEN)
         == s.(threads := s.threads[u := MarkUnlock(u)], marked := s.marked + {u})
  {
  }

  lemma UploadLetsGo(s: State, u: Tid)
    requires u in s.threads && s.threads[u] == MarkUnlock(u)
    ensures Enabled(s, u, NOTHING_CHOSEN)
    ensures Step(s, u, NOTHING_CHOSEN)
         == s.(threads := s.threads[u := Exiting(u)], owners := s.owners - {GarbageLock(u)})
  {
  }

  lemma UploadExits(s: State, u: Tid)
    requires u in s.threads && s.threads[u] == Exiting(u)
    ensures Enabled(s, u, NOTHING_CHOSEN)
    ensures Step(s, u, NOTHING_CHOSEN) == s.(threads := s.threads[u := Exited])
  {
  }

  // An upload thread marks itself under the lock of its record and exits.
  lemma UploadAlone(s: State, u: Tid) returns (after: State)
    requires u in s.threads && s.threads[u] == Uploading(u) && GarbageLock(u) !in s.owners
    ensures Alone(s, u, NOTHING_CHOSEN, 5) == Some(after)
    ensures after == s.(threads := s.threads[u := Exited], marked := s.marked + {u})
  {
    hide Step, Enabled, Alone;
    var x := NOTHING_CHOSEN;
    NoStep(s, u, x);
    UploadEnds(s, u);
    OneMoreStep(s, u, x, 0, s);
    var s1 := Step(s, u, x);
    UploadTakes(s1, u);
    OneMoreStep(s, u, x, 1, s1);
    var s2 := Step(s1, u, x);
    Overwrites(s.threads, u, MarkLock(u), MarkIn(u));
    after := MarkedAlone(s, s2, u, 2);
    Overwrites(s.threads, u, MarkIn(u), Exited);
    assert s.owners[GarbageLock(u) := u] - {GarbageLock(u)} == s.owners;
  }

  lemma MarkedAlone(origin: State, s: State, u: Tid, count: nat) returns (after: State)
    requires u in s.threads && s.threads[u] == MarkIn(u)
    requires Alone(origin, u, NOTHING_CHOSEN, count) == Some(s)
    ensures Alone(origin, u, NOTHING_CHOSEN, count + 3) == Some(after)
    ensures after == s.(threads := s.threads[u := Exited], marked := s.marked + {u},
                        owners := s.owners - {GarbageLock(u)})
  {
    hide Step, Enabled, Alone;
    var x := NOTHING_CHOSEN;
    UploadMarks(s, u);
    OneMoreStep(origin, u, x, count, s);
    var s1 := Step(s, u, x);
    UploadLetsGo(s1, u);
    OneMoreStep(origin, u, x, count + 1, s1);
    Overwrites(s.threads, u, MarkUnlock(u), Exiting(u));
    var s2 := Step(s1, u, x);
    UploadExits(s2, u);
    OneMoreStep(origin, u, x, count + 2, s2);
    Overwrites(s.threads, u, Exiting(u), Exited);
    after := Step(s2, u, x);
  }

  // Where a collector stands between two records.
  function Between(site: Site): Pc {
    match site
    case AtWork(spot) => InClient(spot)
    case AtEnd(c) => FinalIn(c)
  }

  function LooksAt(u: Tid): Choice {
    Choice(Serialized, false, 0, Some(u))
  }

  lemma CollectorTurns(s: State, t: Tid, site: Site, u: Tid)
    requires t in s.threads && s.threads[t] == Between(site) && u in s.threads
    ensures Enabled(s, t, LooksAt(u)) && Step(s, t, LooksAt(u)) == s.(threads := s.threads[t := GarbageWant(site, u)])
  {
  }

  lemma CollectorTakes(s: State, t: Tid, site: Site, u: Tid)
    requires t in s.threads && s.threads[t] == GarbageWant(site, u) && u in s.threads && GarbageLock(u) !in s.owners
    ensures Enabled(s, t, LooksAt(u))
    ensures Step(s, t, LooksAt(u))
         == s.(threads := s.threads[t := GarbageTest(site, u)], owners := s.owners[GarbageLock(u) := t])
  {
  }

  lemma CollectorTests(s: State, t: Tid, site: Site, u: Tid)
    requires t in s.threads && s.threads[t] == GarbageTest(site, u) && u in s.threads
    ensures Enabled(s, t, LooksAt(u))
    ensures u in s.marked ==> Step(s, t, LooksAt(u)) == s.(threads := s.threads[t := GarbageJoin(site, u)])
    ensures u !in s.marked ==> Step(s, t, LooksAt(u)) == s.(threads := s.threads[t := GarbageUnlock(site, u)])
  {
  }

  lemma CollectorJoins(s: State, t: Tid, site: Site, u: Tid)
    requires t in s.threads && s.threads[t] == GarbageJoin(site, u) && u in s.threads
    ensures Enabled(s, t, LooksAt(u)) <==> s.threads[u] == Exited
    ensures s.threads[u] == Exited ==>
      Step(s, t, LooksAt(u)) == s.(threads := s.threads[t := GarbageUnlock(site, u)])
  {
  }

  lemma CollectorLetsGo(s: State, t: Tid, site: Site, u: Tid)
    requires t in s.threads && s.threads[t] == GarbageUnlock(site, u) && u in s.threads
    ensures Enabled(s, t, LooksAt(u))
    ensures Step(s, t, LooksAt(u))
         == s.(threads := s.threads[t := Between(site)], owners := s.owners - {GarbageLock(u)})
  {
  }

  lemma TestsAlone(s: State, t: Tid, site: Site, u: Tid) returns (tested: State)
    requires t in s.threads && s.threads[t] == Between(site) && u in s.threads && GarbageLock(u) !in s.owners
    ensures Alone(s, t, LooksAt(u), 3) == Some(tested)
    ensures tested == s.(owners := s.owners[GarbageLock(u) := t], threads :=
      s.threads[t := if u in s.marked then GarbageJoin(site, u) else GarbageUnlock(site, u)])
  {
    hide Step, Enabled, Alone, Between;
    var x := LooksAt(u);
    NoStep(s, t, x);
    CollectorTurns(s, t, site, u);
    OneMoreStep(s, t, x, 0, s);
    var s1 := Step(s, t, x);
    CollectorTakes(s1, t, site, u);
    OneMoreStep(s, t, x, 1, s1);
    Overwrites(s.threads, t, GarbageWant(site, u), GarbageTest(site, u));
    var s2 := Step(s1, t, x);
    CollectorTests(s2, t, site, u);
    OneMoreStep(s, t, x, 2, s2);
    tested := Step(s2, t, x);
    Overwrites(s.threads, t, GarbageTest(site, u), tested.threads[t]);
  }

  // A collector, at either place, takes a record's lock and tests its mark: it joins the thread of a
  // marked one, and has to wait until that has exited; the thread of an unmarked one it leaves alone.
  lemma CollectsAlone(s: State, t: Tid, site: Site, u: Tid) returns (tested: State)
    requires t in s.threads && s.threads[t] == Between(site) && u in s.threads && GarbageLock(u) !in s.owners && t != u
    ensures Alone(s, t, LooksAt(u), 3) == Some(tested)
    ensures tested == s.(owners := s.owners[GarbageLock(u) := t], threads :=
      s.threads[t := if u in s.marked then GarbageJoin(site, u) else GarbageUnlock(site, u)])
    ensures u in s.marked && s.threads[u] != Exited ==> !Enabled(tested, t, LooksAt(u))
    ensures u !in s.marked || s.threads[u] == Exited ==> Enabled(tested, t, LooksAt(u))
    ensures u !in s.marked ==> Alone(s, t, LooksAt(u), 4) == Some(s)
    ensures u in s.marked && s.threads[u] == Exited ==> Alone(s, t, LooksAt(u), 5) == Some(s)
  {
    hide Step, Enabled, Alone, Between;
    tested := TestsAlone(s, t, site, u);
    if u !in s.marked {
      CollectedOne(s, tested, t, site, u, 3);
    } else {
      CollectorJoins(tested, t, site, u);
      if s.threads[u] == Exited {
        OneMoreStep(s, t, LooksAt(u), 3, tested);
        Overwrites(s.threads, t, GarbageJoin(site, u), GarbageUnlock(site, u));
        CollectedOne(s, Step(tested, t, LooksAt(u)), t, site, u, 4);
      }
    }
  }

  lemma CollectedOne(s: State, last: State, t: Tid, site: Site, u: Tid, count: nat)
    requires t in s.threads && s.threads[t] == Between(site) && u in s.threads && GarbageLock(u) !in s.owners
    requires Alone(s, t, LooksAt(u), count) == Some(last)
    requires last == s.(threads := s.threads[t := GarbageUnlock(site, u)], owners := s.owners[GarbageLock(u) := t])
    ensures Enabled(last, t, LooksAt(u)) && Alone(s, t, LooksAt(u), count + 1) == Some(s)
  {
    hide Step, Enabled, Alone, Between;
    CollectorLetsGo(last, t, site, u);
    OneMoreStep(s, t, LooksAt(u), count, last);
    Overwrites(s.threads, t, GarbageUnlock(site, u), Between(site));
    assert s.threads[t := Between(site)] == s.threads;
    assert s.owners[GarbageLock(u) := t] - {GarbageLock(u)} == s.owners;
  }

  // ----- The order of the list -----

  // The clients other than one, in their order.
  function Except(clients: seq<Client>, c: Client): seq<Client> {
    if clients == [] then []
    else
      var last := clients[|clients| - 1];
      Except(clients[..|clients| - 1], c) + (if last == c then [] else [last])
  }

  // The clients added and not ended since, in the order in which they were added.
  function Standing(log: seq<Entry>): seq<Client> {
    if log == [] then []
    else
      var earlier, last := Standing(log[..|log| - 1]), log[|log| - 1];
      if last.Added? then earlier + [last.client]
      else if last.Ended? then Except(earlier, last.client)
      else earlier
  }

  lemma {:induction false} ExceptAbsent(clients: seq<Client>, c: Client)
    requires c !in clients
    ensures Except(clients, c) == clients
  {
    if clients != [] {
      ExceptAbsent(clients[..|clients| - 1], c);
    }
  }

  lemma {:induction false} ExceptJoins(a: seq<Client>, b: seq<Client>, c: Client)
    ensures Except(a + b, c) == Except(a, c) + Except(b, c)
  {
    if b == [] {
      assert a + b == a && Except(a, c) + [] == Except(a, c);
    } else {
      var earlier, last := b[..|b| - 1], b[|b| - 1];
      assert (a + b)[..|a + b| - 1] == a + earlier;
      ExceptJoins(a, earlier, c);
    }
  }

  lemma ExceptBetween(a: seq<Client>, c: Client, b: seq<Client>)
    requires c !in a && c !in b
    ensures Except(a + ([c] + b), c) == a + b
  {
    hide Except;
    ExceptJoins(a, [c] + b, c);
    ExceptJoins([c], b, c);
    ExceptAbsent(a, c);
    ExceptAbsent(b, c);
    ExceptOne(c);
    assert [] + b == b;
  }

  lemma ExceptOne(c: Client)
    ensures Except([c], c) == []
  {
  }

  // Of a list without repeats, erasing one element leaves just the others.
  lemma ErasingIsExcept(clients: seq<Client>, c: Client)
    requires NoRepeats(clients)
    ensures WithoutClient(clients, c) == Except(clients, c)
  {
    hide Except, FindClient;
    var i := FindClient(clients, c);
    if i < |clients| {
      assert clients == clients[..i] + ([c] + clients[i + 1..]);
      ExceptBetween(clients[..i], c, clients[i + 1..]);
    } else {
      ExceptAbsent(clients, c);
    }
  }

  lemma StandingAfter(log: seq<Entry>, e: Entry)
    ensures Standing(log + [e])
         == if e.Added? then Standing(log) + [e.client]
            else if e.Ended? then Except(Standing(log), e.client) else Standing(log)
  {
    assert (log + [e])[..|log|] == log;
  }

  lemma StepKeepsOrder(s: State, t: Tid, x: Choice)
    requires NoRepeats(s.clients) && Enabled(s, t, x) && s.clients == Standing(s.log)
    ensures Step(s, t, x).clients == Standing(Step(s, t, x).log)
  {
    hide NextPc, NextOwners, NextHandle, NextThreads, Standing, Except, WithoutClient;
    var pc := s.threads[t];
    ghost var e := if pc.StartAdd? then Added(pc.client)
                   else if pc.EndErase? then Ended(pc.client)
                   else if pc.EndUnlock? then Returned(pc.client)
                   else if pc.WorkNext? && pc.at < |s.clients| then Work(s.clients[pc.at])
                   else Work(0);
    StandingAfter(s.log, e);
    if pc.EndErase? {
      ErasingIsExcept(s.clients, pc.client);
    }
  }

  lemma {:induction false} OrderFrom(s: State, steps: seq<(Tid, Choice)>, t: State)
    requires Inv(s) && IsRun(s, steps, t) && s.clients == Standing(s.log)
    ensures t.clients == Standing(t.log)
    decreases |steps|
  {
    hide Locked, Walking, Closing, Handled, Uploads, Step, Enabled, Standing, WorkIsSafe, ReturnsAreSafe, Registered;
    if steps != [] {
      StepKeepsOrder(s, steps[0].0, steps[0].1);
      StepKeepsInv(s, steps[0].0, steps[0].1);
      OrderFrom(Step(s, steps[0].0, steps[0].1), steps[1..], t);
    }
  }

  // In every reachable state the list holds the clients added and not ended since, in the order in which
  // they were added: that is the order in which the worker serves them.
  lemma ListInOrderOfRegistration(initial: State, steps: seq<(Tid, Choice)>, s: State)
    requires Initial(initial) && IsRun(initial, steps, s)
    ensures s.clients == Standing(s.log)
  {
    hide Inv;
    InitialIsSafe(initial);
    OrderFrom(initial, steps, s);
  }
}
