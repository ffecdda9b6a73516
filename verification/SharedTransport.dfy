/** One transport shared by many clients: worker threads, the callers that register and deregister
    clients, upload threads and those that collect them, and the locks between them, as a machine
    whose steps are those of single threads. */
module SharedTransport {
  import opened Options

  type Client = nat
  type Tid = nat

  // The transport lock is also the lock of every client that shares the transport. An upload thread
  // has a record of its own, with a lock; the thread stands for its record.
  datatype Lock = ClientsLock | TransportLock | GarbageLock(upload: Tid)

  // A worker inside a client's work: the size it read, its place in the list, the client there.
  datatype Spot = Spot(size: nat, at: nat, client: Client)

  // Where finished upload threads are collected: by a worker inside a client, or in the destruction.
  datatype Site = AtWork(spot: Spot) | AtEnd(client: Client)

  // Where a thread is. Each position is followed by one step that touches shared state once.
  datatype Pc =
    | Idle
    // start_worker_if_needed
    | StartTest(client: Client)
    | StartClear(client: Client)
    | StartCreate(client: Client)
    | StartAgain(client: Client)
    | StartLock(client: Client)
    | StartAdd(client: Client)
    | StartUnlock
    // any call that is serialized by the client's lock; it may create an upload thread
    | CallLock
    | CallIn
    | CallUnlock
    // signal_end_worker_thread
    | EndLock(client: Client)
    | EndErase(client: Client)
    | EndTest(client: Client)
    | StopLock(client: Client)
    | StopIn(client: Client)
    | EndUnlock(client: Client, okToJoin: bool)
    // the rest of the client's destruction, which collects under the client's lock
    | DestroyLock(client: Client, okToJoin: bool)
    | DestroyIn(client: Client, okToJoin: bool)
    | JoinTest(client: Client)
    | JoinWait(client: Client, worker: Tid)
    | FinalLock(client: Client)
    | FinalIn(client: Client)
    | FinalUnlock
    // destruction of the transport
    | TransportStopLock
    | TransportStopIn
    | TransportJoinTest
    | TransportJoinWait(worker: Tid)
    // transport_worker_thread and multiplexed_client_do_work
    | WorkLock
    | WorkTest
    | WorkLockClients
    | WorkNext(size: nat, at: nat)
    | InClient(spot: Spot)
    | InClientLock(spot: Spot)
    | InClientIn(spot: Spot)
    | Exited
    // garbageCollectorImpl, one record at a time
    | GarbageWant(site: Site, upload: Tid)
    | GarbageTest(site: Site, upload: Tid)
    | GarbageJoin(site: Site, upload: Tid)
    | GarbageUnlock(site: Site, upload: Tid)
    // an upload, then markThreadReadyToBeGarbageCollected
    | Uploading(upload: Tid)
    | MarkLock(upload: Tid)
    | MarkIn(upload: Tid)
    | MarkUnlock(upload: Tid)
    | Exiting(upload: Tid)

  // `Ended` is logged when a client is erased, `Returned` when the signalling call has let go.
  datatype Entry = Added(client: Client) | Ended(client: Client) | Returned(client: Client) | Work(client: Client)

  // `marked` holds the upload threads that have marked themselves; `log` is history.
  datatype State = State(
    threads: map<Tid, Pc>,
    owners: map<Lock, Tid>,
    clients: seq<Client>,
    workerHandle: Option<Tid>,
    stopThread: bool,
    marked: set<Tid>,
    log: seq<Entry>)

  datatype Call = Start(client: Client) | Serialized | Destroy(client: Client) | DestroyTransport

  // What the scheduler and the environment choose: the call an idle thread makes, whether an
  // allocation or a thread creation succeeds, the id of a created thread, and the upload thread a
  // collector looks at next, if any.
  datatype Choice = Choice(call: Call, ok: bool, created: Tid, upload: Option<Tid>)

  // ----- Locks -----

  function Wants(pc: Pc): Option<Lock> {
    match pc
    case StartLock(_) | EndLock(_) | WorkLockClients => Some(ClientsLock)
    case CallLock | StopLock(_) | DestroyLock(_, _) | FinalLock(_) | TransportStopLock | WorkLock
      | InClientLock(_) => Some(TransportLock)
    case GarbageWant(_, u) => Some(GarbageLock(u))
    case MarkLock(u) => Some(GarbageLock(u))
    case _ => None
  }

  function Releases(pc: Pc): Option<Lock> {
    match pc
    case StartUnlock | EndUnlock(_, _) => Some(ClientsLock)
    case WorkNext(size, at) => if at < size then None else Some(ClientsLock)
    case CallUnlock | StopIn(_) | DestroyIn(_, _) | FinalUnlock | TransportStopIn | WorkTest
      | InClientIn(_) => Some(TransportLock)
    case GarbageUnlock(_, u) => Some(GarbageLock(u))
    case MarkUnlock(u) => Some(GarbageLock(u))
    case _ => None
  }

  predicate Collects(pc: Pc) {
    pc.GarbageWant? || pc.GarbageTest? || pc.GarbageJoin? || pc.GarbageUnlock?
  }

  predicate IsUpload(pc: Pc) {
    pc.Uploading? || pc.MarkLock? || pc.MarkIn? || pc.MarkUnlock? || pc.Exiting?
  }

  // The place of a thread inside a client's work.
  function SpotOf(pc: Pc): Option<Spot> {
    if pc.InClient? || pc.InClientLock? || pc.InClientIn? then Some(pc.spot)
    else if Collects(pc) && pc.site.AtWork? then Some(pc.site.spot)
    else None
  }

  predicate IsInClient(pc: Pc) {
    SpotOf(pc).Some?
  }

  // The locks a thread holds at a position.
  predicate Holds(pc: Pc, lock: Lock) {
    match lock
    case ClientsLock =>
      || pc.StartAdd? || pc.StartUnlock? || pc.EndErase? || pc.EndTest? || pc.StopLock? || pc.StopIn?
      || pc.EndUnlock? || pc.WorkNext? || IsInClient(pc)
    case TransportLock =>
      || pc.CallIn? || pc.CallUnlock? || pc.StopIn? || pc.DestroyIn? || pc.FinalIn? || pc.FinalUnlock?
      || pc.TransportStopIn? || pc.WorkTest? || pc.InClientIn? || (Collects(pc) && pc.site.AtEnd?)
    case GarbageLock(u) =>
      && (pc.GarbageTest? || pc.GarbageJoin? || pc.GarbageUnlock? || pc.MarkIn? || pc.MarkUnlock?)
      && pc.upload == u
  }

  // ----- Steps -----

  function WithClient(clients: seq<Client>, c: Client): seq<Client> {
    if c in clients then clients else clients + [c]
  }

  function FindClient(clients: seq<Client>, c: Client): (i: nat)
    ensures i <= |clients|
    ensures i < |clients| ==> clients[i] == c
    ensures forall j :: 0 <= j < i ==> clients[j] != c
  {
    if clients == [] || clients[0] == c then 0 else 1 + FindClient(clients[1..], c)
  }

  // Erases one element only.
  function WithoutClient(clients: seq<Client>, c: Client): seq<Client> {
    var i := FindClient(clients, c);
    if i < |clients| then clients[..i] + clients[i + 1..] else clients
  }

  function Begin(call: Call): Pc {
    match call
    case Start(c) => StartTest(c)
    case Serialized => CallLock
    case Destroy(c) => EndLock(c)
    case DestroyTransport => TransportStopLock
  }

  predicate HasExited(s: State, t: Tid) {
    t in s.threads && s.threads[t] == Exited
  }

  // The thread a position waits to end.
  function JoinedBy(pc: Pc): Option<Tid> {
    match pc
    case JoinWait(_, w) => Some(w)
    case TransportJoinWait(w) => Some(w)
    case GarbageJoin(_, u) => Some(u)
    case _ => None
  }

  // An upload thread is looked at by a collector only once it is there.
  predicate Enabled(s: State, t: Tid, x: Choice) {
    && t in s.threads && s.threads[t] != Exited
    && (Wants(s.threads[t]).Some? ==> Wants(s.threads[t]).value !in s.owners)
    && (JoinedBy(s.threads[t]).Some? ==> HasExited(s, JoinedBy(s.threads[t]).value))
    && (s.threads[t].StartCreate? || s.threads[t].CallIn? ==> x.created !in s.threads)
    && (x.upload.Some? ==> x.upload.value in s.threads)
  }

  // The next position, procedure by procedure.
  predicate Calling(pc: Pc) {
    || pc.Idle? || pc.StartTest? || pc.StartClear? || pc.StartCreate? || pc.StartAgain? || pc.StartLock?
    || pc.StartAdd? || pc.StartUnlock? || pc.CallLock? || pc.CallIn? || pc.CallUnlock?
  }

  function NextCall(s: State, pc: Pc, x: Choice): Pc
    requires Calling(pc)
  {
    match pc
    case Idle => Begin(x.call)
    case StartTest(c) => if s.workerHandle.None? then StartClear(c) else StartAgain(c)
    case StartClear(c) => StartCreate(c)
    case StartCreate(c) => StartAgain(c)
    case StartAgain(c) => if s.workerHandle.Some? then StartLock(c) else Idle
    case StartLock(c) => StartAdd(c)
    case StartAdd(_) => StartUnlock
    case StartUnlock => Idle
    case CallLock => CallIn
    case CallIn => CallUnlock
    case CallUnlock => Idle
  }

  predicate Signalling(pc: Pc) {
    pc.EndLock? || pc.EndErase? || pc.EndTest? || pc.StopLock? || pc.StopIn? || pc.EndUnlock?
  }

  function NextSignal(s: State, pc: Pc): Pc
    requires Signalling(pc)
  {
    match pc
    case EndLock(c) => EndErase(c)
    case EndErase(c) => EndTest(c)
    case EndTest(c) => if s.workerHandle.Some? && s.clients == [] then StopLock(c) else EndUnlock(c, false)
    case StopLock(c) => StopIn(c)
    case StopIn(c) => EndUnlock(c, true)
    case EndUnlock(c, ok) => DestroyLock(c, ok)
  }

  predicate Destroying(pc: Pc) {
    || pc.DestroyLock? || pc.DestroyIn? || pc.JoinTest? || pc.JoinWait? || pc.FinalLock? || pc.FinalIn?
    || pc.FinalUnlock? || pc.TransportStopLock? || pc.TransportStopIn? || pc.TransportJoinTest?
    || pc.TransportJoinWait?
  }

  function NextDestroy(s: State, pc: Pc, x: Choice): Pc
    requires Destroying(pc)
  {
    match pc
    case DestroyLock(c, ok) => DestroyIn(c, ok)
    case DestroyIn(c, ok) => if ok then JoinTest(c) else FinalLock(c)
    case JoinTest(c) => if s.workerHandle.Some? then JoinWait(c, s.workerHandle.value) else FinalLock(c)
    case JoinWait(c, _) => FinalLock(c)
    case FinalLock(c) => FinalIn(c)
    case FinalIn(c) => if x.upload.Some? then GarbageWant(AtEnd(c), x.upload.value) else FinalUnlock
    case FinalUnlock => Idle
    case TransportStopLock => TransportStopIn
    case TransportStopIn => TransportJoinTest
    case TransportJoinTest => if s.workerHandle.Some? then TransportJoinWait(s.workerHandle.value) else Idle
    case TransportJoinWait(_) => Idle
  }

  predicate Working(pc: Pc) {
    || pc.WorkLock? || pc.WorkTest? || pc.WorkLockClients? || pc.WorkNext? || pc.InClient? || pc.InClientLock?
    || pc.InClientIn? || pc.Exited?
  }

  function NextWork(s: State, pc: Pc, x: Choice): Pc
    requires Working(pc)
  {
    match pc
    case WorkLock => WorkTest
    case WorkTest => if s.stopThread then Exited else WorkLockClients
    case WorkLockClients => WorkNext(|s.clients|, 0)
    case WorkNext(n, i) =>
      if i >= n then WorkLock
      else if i < |s.clients| then InClient(Spot(n, i, s.clients[i]))
      else WorkNext(n, i + 1)
    case InClient(spot) =>
      if x.upload.Some? then GarbageWant(AtWork(spot), x.upload.value)
      else if x.ok then InClientLock(spot)
      else WorkNext(spot.size, spot.at + 1)
    case InClientLock(spot) => InClientIn(spot)
    case InClientIn(spot) => InClient(spot)
    case Exited => Exited
  }

  predicate OnRecord(pc: Pc) {
    Collects(pc) || IsUpload(pc)
  }

  function NextOnRecord(s: State, pc: Pc): Pc
    requires OnRecord(pc)
  {
    match pc
    case GarbageWant(site, u) => GarbageTest(site, u)
    case GarbageTest(site, u) => if u in s.marked then GarbageJoin(site, u) else GarbageUnlock(site, u)
    case GarbageJoin(site, u) => GarbageUnlock(site, u)
    case GarbageUnlock(site, _) => if site.AtWork? then InClient(site.spot) else FinalIn(site.client)
    case Uploading(u) => MarkLock(u)
    case MarkLock(u) => MarkIn(u)
    case MarkIn(u) => MarkUnlock(u)
    case MarkUnlock(u) => Exiting(u)
    case Exiting(_) => Exited
  }

  function NextPc(s: State, pc: Pc, x: Choice): Pc {
    if Calling(pc) then NextCall(s, pc, x)
    else if Signalling(pc) then NextSignal(s, pc)
    else if Destroying(pc) then NextDestroy(s, pc, x)
    else if Working(pc) then NextWork(s, pc, x)
    else NextOnRecord(s, pc)
  }

  function NextOwners(s: State, t: Tid, pc: Pc): map<Lock, Tid> {
    if Wants(pc).Some? then s.owners[Wants(pc).value := t]
    else if Releases(pc).Some? then s.owners - {Releases(pc).value}
    else s.owners
  }

  function NextClients(s: State, pc: Pc, x: Choice): seq<Client> {
    if pc.StartAdd? && x.ok then WithClient(s.clients, pc.client)
    else if pc.EndErase? then WithoutClient(s.clients, pc.client)
    else s.clients
  }

  function NextHandle(s: State, pc: Pc, x: Choice): Option<Tid> {
    if pc.StartCreate? then (if x.ok then Some(x.created) else None)
    else if pc.JoinWait? || pc.TransportJoinWait? then None
    else s.workerHandle
  }

  // A start creates a worker, another call may create an upload thread.
  predicate Creates(pc: Pc, x: Choice) {
    (pc.StartCreate? || pc.CallIn?) && x.ok
  }

  function CreatedPc(pc: Pc, x: Choice): Pc {
    if pc.StartCreate? then WorkLock else Uploading(x.created)
  }

  function NextThreads(s: State, t: Tid, x: Choice): map<Tid, Pc>
    requires Enabled(s, t, x)
  {
    var pc := s.threads[t];
    var stepped := s.threads[t := NextPc(s, pc, x)];
    if Creates(pc, x) then stepped[x.created := CreatedPc(pc, x)] else stepped
  }

  function NextLog(s: State, pc: Pc, x: Choice): seq<Entry> {
    if pc.StartAdd? && x.ok && pc.client !in s.clients then s.log + [Added(pc.client)]
    else if pc.EndErase? then s.log + [Ended(pc.client)]
    else if pc.EndUnlock? then s.log + [Returned(pc.client)]
    else if pc.WorkNext? && pc.at < pc.size && pc.at < |s.clients| then s.log + [Work(s.clients[pc.at])]
    else s.log
  }

  function Step(s: State, t: Tid, x: Choice): State
    requires Enabled(s, t, x)
  {
    var pc := s.threads[t];
    State(NextThreads(s, t, x), NextOwners(s, t, pc), NextClients(s, pc, x), NextHandle(s, pc, x),
          if pc.StartClear? then false else if pc.StopIn? || pc.TransportStopIn? then true else s.stopThread,
          if pc.MarkIn? then s.marked + {pc.upload} else s.marked,
          NextLog(s, pc, x))
  }

  // ----- The procedures, run by one thread without interference -----

  class TransportHandleData {
    var clients: seq<Client>
    var workerThreadHandle: Option<Tid>
    var stopThread: bool

    // A transport has no worker until a client is started.
    constructor ()
      ensures clients == [] && workerThreadHandle == None && stopThread
    {
      clients, workerThreadHandle, stopThread := [], None, true;
    }

    // Every registered client is worked on once, in the order of the list.
    method MultiplexedClientDoWork() returns (worked: seq<Client>)
      ensures worked == clients
    {
      worked := [];
      var numberOfClients := |clients|;
      for index := 0 to numberOfClients
        invariant worked == clients[..index]
      {
        worked := worked + [clients[index]];
      }
    }

    // `created` is the thread that ThreadAPI_Create makes, if it succeeds.
    method StartWorkerIfNeeded(client: Client, created: Option<Tid>, pushes: bool) returns (ok: bool)
      modifies this
      ensures workerThreadHandle == if old(workerThreadHandle).None? then created else old(workerThreadHandle)
      ensures stopThread == (old(stopThread) && old(workerThreadHandle).Some?)
      ensures ok == (workerThreadHandle.Some? && (pushes || client in old(clients)))
      ensures clients == if ok then WithClient(old(clients), client) else old(clients)
      ensures ok && client !in old(clients) ==> clients == old(clients) + [client]
      ensures !ok || client in old(clients) ==> clients == old(clients)
    {
      if workerThreadHandle == None {
        stopThread := false;
        workerThreadHandle := created;
      }
      if workerThreadHandle == None {
        return false;
      }
      if client in clients {
        return true;
      }
      if pushes {
        clients := clients + [client];
      }
      ok := pushes;
    }

    // The worker is told to stop when the last client goes.
    method SignalEndWorkerThread(client: Client) returns (okToJoin: bool)
      modifies this`clients, this`stopThread
      ensures clients == WithoutClient(old(clients), client)
      ensures okToJoin == (workerThreadHandle.Some? && clients == [])
      ensures stopThread == (old(stopThread) || okToJoin)
    {
      var element := FindClient(clients, client);
      if element < |clients| {
        clients := clients[..element] + clients[element + 1..];
      }
      okToJoin := workerThreadHandle != None && |clients| == 0;
      if okToJoin {
        stopThread := true;
      }
    }
  }

  // A transport just created, and the threads of its user.
  ghost predicate Initial(s: State) {
    && (forall t :: t in s.threads ==> s.threads[t] == Idle)
    && s.owners == map[] && s.clients == [] && s.workerHandle == None && s.stopThread
    && s.marked == {} && s.log == []
  }

  ghost predicate IsRun(s: State, steps: seq<(Tid, Choice)>, t: State)
    decreases |steps|
  {
    if steps == [] then s == t
    else
      && Enabled(s, steps[0].0, steps[0].1)
      && IsRun(Step(s, steps[0].0, steps[0].1), steps[1..], t)
  }

  // ----- The procedures are what the machine's threads do -----

  // Steps of one thread only, all with the same choice.
  function Alone(s: State, t: Tid, x: Choice, count: nat): Option<State> {
    if count == 0 then Some(s)
    else
      var before := Alone(s, t, x, count - 1);
      if before.Some? && Enabled(before.value, t, x) then Some(Step(before.value, t, x)) else None
  }

  lemma OneMoreStep(s: State, t: Tid, x: Choice, count: nat, before: State)
    requires Enabled(before, t, x)
    ensures Alone(s, t, x, count) == Some(before) ==> Alone(s, t, x, count + 1) == Some(Step(before, t, x))
  {
  }

  const NOTHING_CHOSEN: Choice := Choice(Serialized, false, 0, None)

  lemma Overwrites<K, V>(m: map<K, V>, k: K, v: V, w: V)
    ensures m[k := v][k := w] == m[k := w]
  {
  }

  lemma SignalTakes(s: State, t: Tid, c: Client)
    requires t in s.threads && s.threads[t] == EndLock(c) && s.owners == map[]
    ensures Enabled(s, t, NOTHING_CHOSEN)
    ensures Step(s, t, NOTHING_CHOSEN) == s.(threads := s.threads[t := EndErase(c)], owners := map[ClientsLock := t])
  {
  }

  lemma SignalErases(s: State, t: Tid, c: Client)
    requires t in s.threads && s.threads[t] == EndErase(c)
    ensures Enabled(s, t, NOTHING_CHOSEN)
    ensures Step(s, t, NOTHING_CHOSEN) == s.(threads := s.threads[t := EndTest(c)], clients := WithoutClient(s.clients, c),
                                                log := s.log + [Ended(c)])
  {
  }

  lemma SignalTests(s: State, t: Tid, c: Client)
    requires t in s.threads && s.threads[t] == EndTest(c)
    ensures Enabled(s, t, NOTHING_CHOSEN)
    ensures Step(s, t, NOTHING_CHOSEN) == s.(threads := 
         s.threads[t := if s.workerHandle.Some? && s.clients == [] then StopLock(c) else EndUnlock(c, false)])
  {
  }

  lemma SignalWantsBoth(s: State, t: Tid, c: Client)
    requires t in s.threads && s.threads[t] == StopLock(c) && s.owners == map[ClientsLock := t]
    ensures Enabled(s, t, NOTHING_CHOSEN)
    ensures Step(s, t, NOTHING_CHOSEN) == s.(threads := s.threads[t := StopIn(c)],
         owners := map[ClientsLock := t, TransportLock := t])
  {
  }

  lemma SignalStops(s: State, t: Tid, c: Client)
    requires t in s.threads && s.threads[t] == StopIn(c) && s.owners == map[ClientsLock := t, TransportLock := t]
    ensures Enabled(s, t, NOTHING_CHOSEN)
    ensures Step(s, t, NOTHING_CHOSEN) == s.(threads := s.threads[t := EndUnlock(c, true)],
         owners := map[ClientsLock := t], stopThread := true)
  {
  }

  lemma SignalReturns(s: State, t: Tid, c: Client, ok: bool)
    requires t in s.threads && s.threads[t] == EndUnlock(c, ok) && s.owners == map[ClientsLock := t]
    ensures Enabled(s, t, NOTHING_CHOSEN)
    ensures Step(s, t, NOTHING_CHOSEN)
         == s.(threads := s.threads[t := DestroyLock(c, ok)], owners := map[], log := s.log + [Returned(c)])
  {
  }

  lemma StopAlone(s: State, t: Tid, c: Client, origin: State, count: nat) returns (after: State)
    requires t in s.threads && s.threads[t] == StopLock(c) && s.owners == map[ClientsLock := t]
    ensures Alone(origin, t, NOTHING_CHOSEN, count) == Some(s) ==>
      Alone(origin, t, NOTHING_CHOSEN, count + 2) == Some(after)
    ensures after == s.(threads := s.threads[t := EndUnlock(c, true)], stopThread := true)
  {
    hide Alone, Step, Enabled;
    var x := NOTHING_CHOSEN;
    SignalWantsBoth(s, t, c);
    OneMoreStep(origin, t, x, count, s);
    var mid := Step(s, t, x);
    SignalStops(mid, t, c);
    OneMoreStep(origin, t, x, count + 1, mid);
    Overwrites(s.threads, t, StopIn(c), EndUnlock(c, true));
    after := Step(mid, t, x);
  }

  lemma EraseAlone(s: State, t: Tid, c: Client) returns (after: State)
    requires t in s.threads && s.threads[t] == EndLock(c) && s.owners == map[]
    ensures Alone(s, t, NOTHING_CHOSEN, 2) == Some(after)
    ensures after == s.(threads := s.threads[t := EndTest(c)], owners := map[ClientsLock := t],
                        clients := WithoutClient(s.clients, c), log := s.log + [Ended(c)])
  {
    hide Alone, Step, Enabled, WithoutClient;
    var x := NOTHING_CHOSEN;
    NoStep(s, t, x);
    SignalTakes(s, t, c);
    OneMoreStep(s, t, x, 0, s);
    var mid := Step(s, t, x);
    SignalErases(mid, t, c);
    OneMoreStep(s, t, x, 1, mid);
    Overwrites(s.threads, t, EndErase(c), EndTest(c));
    after := Step(mid, t, x);
  }

  // A thread that signals the end of a client while no lock is held does what SignalEndWorkerThread
  // does: to the list, to the stop flag and in its answer.
  lemma SignalAlone(s: State, t: Tid, c: Client) returns (count: nat, after: State)
    requires t in s.threads && s.threads[t] == EndLock(c) && s.owners == map[]
    ensures Alone(s, t, NOTHING_CHOSEN, count) == Some(after)
    ensures var okToJoin := s.workerHandle.Some? && WithoutClient(s.clients, c) == [];
            && after.threads == s.threads[t := DestroyLock(c, okToJoin)] && after.owners == map[]
            && after.clients == WithoutClient(s.clients, c)
            && after.stopThread == (s.stopThread || okToJoin) && after.workerHandle == s.workerHandle
            && after.log == s.log + [Ended(c), Returned(c)] && after.marked == s.marked
  {
    hide Alone, Step, Enabled, WithoutClient;
    var x := NOTHING_CHOSEN;
    var erased := EraseAlone(s, t, c);
    SignalTests(erased, t, c);
    OneMoreStep(s, t, x, 2, erased);
    var tested := Step(erased, t, x);
    var okToJoin := s.workerHandle.Some? && erased.clients == [];
    Overwrites(s.threads, t, EndTest(c), tested.threads[t]);
    count, after := 3, tested;
    if okToJoin {
      after := StopAlone(tested, t, c, s, 3);
      count := 5;
    }
    Overwrites(s.threads, t, tested.threads[t], EndUnlock(c, okToJoin));
    SignalReturns(after, t, c, okToJoin);
    OneMoreStep(s, t, x, count, after);
    Overwrites(s.threads, t, EndUnlock(c, okToJoin), DestroyLock(c, okToJoin));
    count, after := count + 1, Step(after, t, x);
  }

  function WorkEntries(clients: seq<Client>): seq<Entry> {
    if clients == [] then [] else [Work(clients[0])] + WorkEntries(clients[1..])
  }

  lemma WorkLogged(log: seq<Entry>, clients: seq<Client>, i: nat)
    requires i <= |clients|
    ensures i == |clients| ==> log + WorkEntries(clients[i..]) == log
    ensures i < |clients| ==>
      log + WorkEntries(clients[i..]) == log + [Work(clients[i])] + WorkEntries(clients[i + 1..])
  {
    assert i < |clients| ==> clients[i..][1..] == clients[i + 1..];
  }

  lemma PassEnters(s: State, t: Tid, i: nat)
    requires t in s.threads && s.threads[t] == WorkNext(|s.clients|, i) && i < |s.clients|
    ensures Enabled(s, t, NOTHING_CHOSEN)
    ensures Step(s, t, NOTHING_CHOSEN)
         == s.(threads := s.threads[t := InClient(Spot(|s.clients|, i, s.clients[i]))],
               log := s.log + [Work(s.clients[i])])
  {
  }

  lemma PassLeaves(s: State, t: Tid, spot: Spot)
    requires t in s.threads && s.threads[t] == InClient(spot)
    ensures Enabled(s, t, NOTHING_CHOSEN)
    ensures Step(s, t, NOTHING_CHOSEN) == s.(threads := s.threads[t := WorkNext(spot.size, spot.at + 1)])
  {
  }

  // A worker that walks the list undisturbed works on the clients that MultiplexedClientDoWork works on.
  lemma {:induction false} PassAlone(origin: State, s: State, t: Tid, count: nat, i: nat)
    returns (total: nat, after: State)
    requires t in s.threads && s.threads[t] == WorkNext(|s.clients|, i) && i <= |s.clients|
    ensures Alone(origin, t, NOTHING_CHOSEN, count) == Some(s) ==> Alone(origin, t, NOTHING_CHOSEN, total) == Some(after)
    ensures after == s.(threads := s.threads[t := WorkNext(|s.clients|, |s.clients|)],
                        log := s.log + WorkEntries(s.clients[i..]))
    decreases |s.clients| - i
  {
    hide Alone, Step, Enabled, WorkEntries;
    WorkLogged(s.log, s.clients, i);
    if i == |s.clients| {
      total, after := count, s;
    } else {
      var spot := Spot(|s.clients|, i, s.clients[i]);
      PassEnters(s, t, i);
      OneMoreStep(origin, t, NOTHING_CHOSEN, count, s);
      var inside := Step(s, t, NOTHING_CHOSEN);
      PassLeaves(inside, t, spot);
      OneMoreStep(origin, t, NOTHING_CHOSEN, count + 1, inside);
      var next := Step(inside, t, NOTHING_CHOSEN);
      Overwrites(s.threads, t, InClient(spot), WorkNext(|s.clients|, i + 1));
      total, after := PassAlone(origin, next, t, count + 2, i + 1);
      Overwrites(s.threads, t, WorkNext(|s.clients|, i + 1), WorkNext(|s.clients|, |s.clients|));
    }
  }

  lemma NoStep(s: State, t: Tid, x: Choice)
    ensures Alone(s, t, x, 0) == Some(s)
  {
  }

  // ----- A start, undisturbed -----

  lemma StartTests(s: State, t: Tid, c: Client, x: Choice)
    requires t in s.threads && s.threads[t] == StartTest(c) && x.upload == None
    ensures Enabled(s, t, x)
    ensures Step(s, t, x) == s.(threads := s.threads[t := if s.workerHandle.None? then StartClear(c) else StartAgain(c)])
  {
  }

  lemma StartClears(s: State, t: Tid, c: Client, x: Choice)
    requires t in s.threads && s.threads[t] == StartClear(c) && x.upload == None
    ensures Enabled(s, t, x)
    ensures Step(s, t, x) == s.(threads := s.threads[t := StartCreate(c)], stopThread := false)
  {
  }

  lemma StartCreates(s: State, t: Tid, c: Client, x: Choice)
    requires t in s.threads && s.threads[t] == StartCreate(c) && x.created !in s.threads && x.upload == None
    ensures Enabled(s, t, x)
    ensures Step(s, t, x) ==
      s.(threads := if x.ok then s.threads[t := StartAgain(c)][x.created := WorkLock] else s.threads[t := StartAgain(c)],
                           workerHandle := if x.ok then Some(x.created) else None)
  {
  }

  lemma StartTestsAgain(s: State, t: Tid, c: Client, x: Choice)
    requires t in s.threads && s.threads[t] == StartAgain(c) && x.upload == None
    ensures Enabled(s, t, x)
    ensures Step(s, t, x) == s.(threads := s.threads[t := if s.workerHandle.Some? then StartLock(c) else Idle])
  {
  }

  lemma StartTakes(s: State, t: Tid, c: Client, x: Choice)
    requires t in s.threads && s.threads[t] == StartLock(c) && s.owners == map[] && x.upload == None
    ensures Enabled(s, t, x)
    ensures Step(s, t, x) == s.(threads := s.threads[t := StartAdd(c)], owners := map[ClientsLock := t])
  {
  }

  lemma StartAdds(s: State, t: Tid, c: Client, x: Choice)
    requires t in s.threads && s.threads[t] == StartAdd(c) && x.upload == None
    ensures Enabled(s, t, x)
    ensures Step(s, t, x) == s.(threads := s.threads[t := StartUnlock], clients := if x.ok then WithClient(s.clients, c) else s.clients,
                          log := if x.ok && c !in s.clients then s.log + [Added(c)] else s.log)
  {
  }

  lemma StartLetsGo(s: State, t: Tid, x: Choice)
    requires t in s.threads && s.threads[t] == StartUnlock && s.owners == map[ClientsLock := t] && x.upload == None
    ensures Enabled(s, t, x)
    ensures Step(s, t, x) == s.(threads := s.threads[t := Idle], owners := map[])
  {
  }

  // From the first test to the second: there is a worker now, or its creation failed.
  lemma StartMakesWorker(s: State, t: Tid, c: Client, x: Choice) returns (count: nat, after: State)
    requires t in s.threads && s.threads[t] == StartTest(c) && x.created !in s.threads && x.upload == None
    ensures Alone(s, t, x, count) == Some(after)
    ensures after == if s.workerHandle.Some? then s.(threads := s.threads[t := StartAgain(c)])
                     else s.(threads := if x.ok then s.threads[t := StartAgain(c)][x.created := WorkLock]
                                        else s.threads[t := StartAgain(c)],
                             workerHandle := if x.ok then Some(x.created) else None, stopThread := false)
  {
    hide Alone, Step, Enabled;
    NoStep(s, t, x);
    StartTests(s, t, c, x);
    OneMoreStep(s, t, x, 0, s);
    count, after := 1, Step(s, t, x);
    if s.workerHandle.None? {
      StartClears(after, t, c, x);
      OneMoreStep(s, t, x, 1, after);
      var cleared := Step(after, t, x);
      Overwrites(s.threads, t, StartClear(c), StartCreate(c));
      StartCreates(cleared, t, c, x);
      OneMoreStep(s, t, x, 2, cleared);
      Overwrites(s.threads, t, StartCreate(c), StartAgain(c));
      count, after := 3, Step(cleared, t, x);
    }
  }

  // From the second test on, with a worker there.
  lemma StartAddsClient(origin: State, s: State, t: Tid, c: Client, x: Choice, count: nat) returns (after: State)
    requires t in s.threads && s.threads[t] == StartAgain(c) && s.owners == map[] && s.workerHandle.Some?
    requires x.upload == None
    ensures Alone(origin, t, x, count) == Some(s) ==> Alone(origin, t, x, count + 4) == Some(after)
    ensures after == s.(threads := s.threads[t := Idle], clients := if x.ok then WithClient(s.clients, c) else s.clients,
                        log := if x.ok && c !in s.clients then s.log + [Added(c)] else s.log)
  {
    hide Alone, Step, Enabled, WithClient;
    StartTestsAgain(s, t, c, x);
    OneMoreStep(origin, t, x, count, s);
    var s1 := Step(s, t, x);
    StartTakes(s1, t, c, x);
    OneMoreStep(origin, t, x, count + 1, s1);
    var s2 := Step(s1, t, x);
    Overwrites(s.threads, t, StartLock(c), StartAdd(c));
    StartAdds(s2, t, c, x);
    OneMoreStep(origin, t, x, count + 2, s2);
    var s3 := Step(s2, t, x);
    Overwrites(s.threads, t, StartAdd(c), StartUnlock);
    StartLetsGo(s3, t, x);
    OneMoreStep(origin, t, x, count + 3, s3);
    Overwrites(s.threads, t, StartUnlock, Idle);
    after := Step(s3, t, x);
  }

  // A thread that starts a client while no lock is held does what StartWorkerIfNeeded does, to the
  // handle, the stop flag and the list, when creating the worker and adding the client both succeed
  // or both fail.
  lemma StartAlone(s: State, t: Tid, c: Client, x: Choice) returns (count: nat, after: State)
    requires t in s.threads && s.threads[t] == StartTest(c) && s.owners == map[]
    requires x.created !in s.threads && x.upload == None
    ensures Alone(s, t, x, count) == Some(after)
    ensures var created := if x.ok then Some(x.created) else None;
            && after.workerHandle == (if s.workerHandle.None? then created else s.workerHandle)
            && after.stopThread == (s.stopThread && s.workerHandle.Some?)
            && after.clients == (if x.ok then WithClient(s.clients, c) else s.clients)
    ensures after.threads
         == (if s.workerHandle.None? && x.ok then s.threads[x.created := WorkLock] else s.threads)[t := Idle]
    ensures after.owners == map[] && after.log <= s.log + [Added(c)] && s.log <= after.log
  {
    hide Alone, Step, Enabled, WithClient;
    count, after := StartMakesWorker(s, t, c, x);
    var made := after;
    if made.workerHandle.Some? {
      after := StartAddsClient(s, made, t, c, x, count);
      count := count + 4;
    } else {
      StartTestsAgain(made, t, c, x);
      OneMoreStep(s, t, x, count, made);
      count, after := count + 1, Step(made, t, x);
    }
    Overwrites(s.threads, t, StartAgain(c), Idle);
    if s.workerHandle.None? && x.ok {
      assert s.threads[t := StartAgain(c)][x.created := WorkLock][t := Idle]
          == s.threads[x.created := WorkLock][t := Idle];
    }
  }

  // ----- Mutual exclusion -----

  // The owner of a lock is the thread whose position says so.
  ghost predicate Locked(s: State) {
    forall t, lock ::
      (lock in s.owners && s.owners[lock] == t) <==> (t in s.threads && Holds(s.threads[t], lock))
  }

  lemma HoldsAfterCall(s: State, pc: Pc, x: Choice, lock: Lock)
    requires Calling(pc)
    ensures Holds(NextCall(s, pc, x), lock)
        <==> Wants(pc) == Some(lock) || (Releases(pc) != Some(lock) && Holds(pc, lock))
  {
  }

  lemma HoldsAfterSignal(s: State, pc: Pc, x: Choice, lock: Lock)
    requires Signalling(pc)
    ensures Holds(NextSignal(s, pc), lock)
        <==> Wants(pc) == Some(lock) || (Releases(pc) != Some(lock) && Holds(pc, lock))
  {
  }

  lemma HoldsAfterDestroy(s: State, pc: Pc, x: Choice, lock: Lock)
    requires Destroying(pc)
    ensures Holds(NextDestroy(s, pc, x), lock)
        <==> Wants(pc) == Some(lock) || (Releases(pc) != Some(lock) && Holds(pc, lock))
  {
  }

  lemma HoldsAfterWork(s: State, pc: Pc, x: Choice, lock: Lock)
    requires Working(pc)
    ensures Holds(NextWork(s, pc, x), lock)
        <==> Wants(pc) == Some(lock) || (Releases(pc) != Some(lock) && Holds(pc, lock))
  {
  }

  lemma HoldsAfterOnRecord(s: State, pc: Pc, x: Choice, lock: Lock)
    requires OnRecord(pc)
    ensures Holds(NextOnRecord(s, pc), lock)
        <==> Wants(pc) == Some(lock) || (Releases(pc) != Some(lock) && Holds(pc, lock))
  {
  }

  lemma ReleasesWhatItHolds(pc: Pc, lock: Lock)
    ensures Releases(pc) == Some(lock) ==> Holds(pc, lock)
    ensures Wants(pc).Some? ==> Releases(pc).None?
  {
  }

  lemma HoldsAfterStep(s: State, pc: Pc, x: Choice, lock: Lock)
    ensures Holds(NextPc(s, pc, x), lock)
        <==> Wants(pc) == Some(lock) || (Releases(pc) != Some(lock) && Holds(pc, lock))
    ensures Releases(pc) == Some(lock) ==> Holds(pc, lock)
    ensures Wants(pc).Some? ==> Releases(pc).None?
  {
    hide NextCall, NextSignal, NextDestroy, NextWork, NextOnRecord, Wants, Releases, Holds;
    ReleasesWhatItHolds(pc, lock);
    if Calling(pc) {
      HoldsAfterCall(s, pc, x, lock);
    } else if Signalling(pc) {
      HoldsAfterSignal(s, pc, x, lock);
    } else if Destroying(pc) {
      HoldsAfterDestroy(s, pc, x, lock);
    } else if Working(pc) {
      HoldsAfterWork(s, pc, x, lock);
    } else {
      HoldsAfterOnRecord(s, pc, x, lock);
    }
  }

  lemma StepKeepsLocked(s: State, t: Tid, x: Choice)
    requires Locked(s) && Enabled(s, t, x)
    ensures Locked(Step(s, t, x))
  {
    hide NextPc, Holds, Wants, Releases;
    var pc, after := s.threads[t], Step(s, t, x);
    forall u, lock
      ensures (lock in after.owners && after.owners[lock] == u) <==> (u in after.threads && Holds(after.threads[u], lock))
    {
      HoldsAfterStep(s, pc, x, lock);
      if Creates(pc, x) {
        NewThreadHoldsNothing(pc, x, lock);
      }
      assert (lock in s.owners && s.owners[lock] == t) <==> Holds(pc, lock);
      assert (lock in s.owners && s.owners[lock] == u) <==> (u in s.threads && Holds(s.threads[u], lock));
    }
  }

  lemma NewThreadHoldsNothing(pc: Pc, x: Choice, lock: Lock)
    requires Creates(pc, x)
    ensures !Holds(CreatedPc(pc, x), lock)
  {
  }

  // ----- The list while it is walked -----

  // A thread walking the list is inside it, and inside the client it stands on.
  predicate Walks(clients: seq<Client>, pc: Pc) {
    && (pc.WorkNext? ==> pc.size == |clients| && pc.at <= pc.size)
    && (IsInClient(pc) ==>
          var spot := SpotOf(pc).value;
          spot.size == |clients| && spot.at < spot.size && clients[spot.at] == spot.client)
  }

  ghost predicate Walking(s: State) {
    forall t :: t in s.threads ==> Walks(s.clients, s.threads[t])
  }

  // The callers, and those that destroy, do not walk the list.
  lemma CallersDoNotWalk(clients: seq<Client>, s: State, pc: Pc, x: Choice)
    requires Calling(pc) || Signalling(pc) || Destroying(pc)
    ensures Walks(clients, NextPc(s, pc, x))
  {
    hide NextWork, NextOnRecord;
  }

  lemma WalksAfterWork(s: State, pc: Pc, x: Choice)
    requires Working(pc) && Walks(s.clients, pc)
    ensures Walks(s.clients, NextWork(s, pc, x))
  {
  }

  lemma WalksAfterOnRecord(s: State, pc: Pc)
    requires OnRecord(pc) && Walks(s.clients, pc)
    ensures Walks(s.clients, NextOnRecord(s, pc))
  {
  }

  lemma WalksAfterStep(s: State, pc: Pc, x: Choice)
    requires Walks(s.clients, pc)
    ensures Walks(NextClients(s, pc, x), NextPc(s, pc, x))
  {
    hide NextCall, NextSignal, NextDestroy, NextWork, NextOnRecord, Walks, WithClient, WithoutClient;
    if Calling(pc) || Signalling(pc) || Destroying(pc) {
      CallersDoNotWalk(NextClients(s, pc, x), s, pc, x);
    } else if Working(pc) {
      WalksAfterWork(s, pc, x);
    } else {
      WalksAfterOnRecord(s, pc);
    }
  }

  lemma OnlyOwnersTouchTheList(s: State, pc: Pc, x: Choice)
    ensures !Holds(pc, ClientsLock) ==> NextClients(s, pc, x) == s.clients && NextLog(s, pc, x) == s.log
  {
  }

  lemma WalkersOwnTheList(clients: seq<Client>, pc: Pc)
    ensures !Holds(pc, ClientsLock) ==> Walks(clients, pc)
  {
  }

  lemma StepKeepsWalking(s: State, t: Tid, x: Choice)
    requires Locked(s) && Walking(s) && Enabled(s, t, x)
    ensures Walking(Step(s, t, x))
  {
    hide NextPc, NextClients, NextLog, Holds, Walks;
    var after := Step(s, t, x);
    OnlyOwnersTouchTheList(s, s.threads[t], x);
    forall u | u in after.threads ensures Walks(after.clients, after.threads[u]) {
      WalkersOwnTheList(after.clients, after.threads[u]);
      if Creates(s.threads[t], x) {
        NewThreadHoldsNothing(s.threads[t], x, ClientsLock);
      }
      if u == t {
        WalksAfterStep(s, s.threads[t], x);
      } else if Holds(after.threads[u], ClientsLock) {
        OneOwner(s, t, u, ClientsLock);
      }
    }
  }

  lemma OneOwner(s: State, t: Tid, u: Tid, lock: Lock)
    requires Locked(s) && t in s.threads && u in s.threads && t != u && Holds(s.threads[u], lock)
    ensures !Holds(s.threads[t], lock)
  {
    hide Holds;
    assert lock in s.owners && s.owners[lock] == u;
  }

  // ----- The list and its history -----

  // Whether the newest word on a client is that it was added.
  predicate Registered(log: seq<Entry>, c: Client) {
    log != [] &&
    (log[|log| - 1] == Added(c) || (log[|log| - 1] != Ended(c) && Registered(log[..|log| - 1], c)))
  }

  ghost predicate NoRepeats(clients: seq<Client>) {
    forall i, j :: 0 <= i < j < |clients| ==> clients[i] != clients[j]
  }

  // Clients are worked on only while they are registered.
  ghost predicate WorkIsSafe(log: seq<Entry>) {
    forall j :: 0 <= j < |log| && log[j].Work? ==> Registered(log[..j], log[j].client)
  }

  predicate EndsJustBefore(log: seq<Entry>, j: nat)
    requires j < |log| && log[j].Returned?
  {
    j > 0 && log[j - 1] == Ended(log[j].client)
  }

  // A signalling call lets go directly after it has erased its client.
  ghost predicate ReturnsAreSafe(log: seq<Entry>) {
    forall j :: 0 <= j < |log| && log[j].Returned? ==> EndsJustBefore(log, j)
  }

  ghost predicate Listed(s: State) {
    && NoRepeats(s.clients)
    && (forall c :: c in s.clients <==> Registered(s.log, c))
    && WorkIsSafe(s.log) && ReturnsAreSafe(s.log)
  }

  // A call past its erasure has logged it last; one about to stop the worker sees an empty list.
  predicate Closes(log: seq<Entry>, clients: seq<Client>, pc: Pc) {
    && (pc.EndTest? || pc.StopLock? || pc.StopIn? || pc.EndUnlock? ==>
          log != [] && log[|log| - 1] == Ended(pc.client))
    && (pc.StopLock? || pc.StopIn? || (pc.EndUnlock? && pc.okToJoin) ==> clients == [])
  }

  ghost predicate Closing(s: State) {
    forall t :: t in s.threads ==> Closes(s.log, s.clients, s.threads[t])
  }

  lemma ErasedFrom(clients: seq<Client>, c: Client)
    requires NoRepeats(clients)
    ensures NoRepeats(WithoutClient(clients, c))
    ensures forall d :: d in WithoutClient(clients, c) <==> d in clients && d != c
  {
    var i, rest := FindClient(clients, c), WithoutClient(clients, c);
    forall d | d in clients && d != c ensures d in rest {
      var j :| 0 <= j < |clients| && clients[j] == d;
      assert i < |clients| ==> rest[if j < i then j else j - 1] == d;
    }
  }

  lemma RegisteredExtended(log: seq<Entry>, e: Entry, c: Client)
    ensures Registered(log + [e], c) <==> e == Added(c) || (e != Ended(c) && Registered(log, c))
  {
    assert (log + [e])[..|log|] == log;
  }

  lemma WorkExtended(log: seq<Entry>, e: Entry)
    requires WorkIsSafe(log) && (e.Work? ==> Registered(log, e.client))
    ensures WorkIsSafe(log + [e])
  {
    hide Registered;
    var longer := log + [e];
    forall j | 0 <= j < |longer| && longer[j].Work? ensures Registered(longer[..j], longer[j].client) {
      assert longer[..j] == log[..j];
      assert log[..|log|] == log;
    }
  }

  lemma ReturnsExtended(log: seq<Entry>, e: Entry)
    requires ReturnsAreSafe(log) && (e.Returned? ==> log != [] && log[|log| - 1] == Ended(e.client))
    ensures ReturnsAreSafe(log + [e])
  {
    var longer := log + [e];
    forall j | 0 <= j < |longer| && longer[j].Returned? ensures EndsJustBefore(longer, j) {
      assert j < |log| ==> EndsJustBefore(log, j);
    }
  }

  lemma LogExtended(log: seq<Entry>, e: Entry)
    requires WorkIsSafe(log) && ReturnsAreSafe(log)
    requires e.Work? ==> Registered(log, e.client)
    requires e.Returned? ==> log != [] && log[|log| - 1] == Ended(e.client)
    ensures WorkIsSafe(log + [e]) && ReturnsAreSafe(log + [e])
    ensures forall c :: Registered(log + [e], c) <==> e == Added(c) || (e != Ended(c) && Registered(log, c))
  {
    hide WorkIsSafe, ReturnsAreSafe, Registered;
    WorkExtended(log, e);
    ReturnsExtended(log, e);
    forall c ensures Registered(log + [e], c) <==> e == Added(c) || (e != Ended(c) && Registered(log, c)) {
      RegisteredExtended(log, e, c);
    }
  }

  lemma StepKeepsListed(s: State, t: Tid, x: Choice)
    requires Listed(s) && Walking(s) && Closing(s) && Enabled(s, t, x)
    ensures Listed(Step(s, t, x))
  {
    hide NextPc, WorkIsSafe, ReturnsAreSafe, Registered;
    var pc := s.threads[t];
    if pc.StartAdd? && x.ok && pc.client !in s.clients {
      LogExtended(s.log, Added(pc.client));
    } else if pc.EndErase? {
      ErasedFrom(s.clients, pc.client);
      LogExtended(s.log, Ended(pc.client));
    } else if pc.EndUnlock? {
      LogExtended(s.log, Returned(pc.client));
    } else if pc.WorkNext? && pc.at < pc.size && pc.at < |s.clients| {
      LogExtended(s.log, Work(s.clients[pc.at]));
    }
  }

  lemma ClosesAfterSignal(s: State, pc: Pc, x: Choice)
    requires Signalling(pc) && Closes(s.log, s.clients, pc)
    ensures Closes(NextLog(s, pc, x), NextClients(s, pc, x), NextSignal(s, pc))
  {
    hide WithoutClient;
  }

  // A signalling call begins by wanting the clients lock.
  lemma SignalsBegin(s: State, pc: Pc, x: Choice)
    requires !Signalling(pc)
    ensures Signalling(NextPc(s, pc, x)) ==> NextPc(s, pc, x).EndLock?
  {
  }

  lemma NothingToClose(log: seq<Entry>, clients: seq<Client>, pc: Pc)
    requires Signalling(pc) ==> pc.EndLock?
    ensures Closes(log, clients, pc)
  {
  }

  lemma ClosesAfterStep(s: State, pc: Pc, x: Choice)
    requires Closes(s.log, s.clients, pc)
    ensures Closes(NextLog(s, pc, x), NextClients(s, pc, x), NextPc(s, pc, x))
  {
    hide NextCall, NextSignal, NextDestroy, NextWork, NextOnRecord, Closes, NextLog, NextClients;
    if Signalling(pc) {
      ClosesAfterSignal(s, pc, x);
    } else {
      SignalsBegin(s, pc, x);
      NothingToClose(NextLog(s, pc, x), NextClients(s, pc, x), NextPc(s, pc, x));
    }
  }

  lemma ClosersOwnTheList(log: seq<Entry>, clients: seq<Client>, pc: Pc)
    ensures !Holds(pc, ClientsLock) ==> Closes(log, clients, pc)
  {
  }

  lemma StepKeepsClosing(s: State, t: Tid, x: Choice)
    requires Locked(s) && Closing(s) && Enabled(s, t, x)
    ensures Closing(Step(s, t, x))
  {
    hide NextPc, NextClients, NextLog, Holds, Closes;
    var after := Step(s, t, x);
    OnlyOwnersTouchTheList(s, s.threads[t], x);
    forall u | u in after.threads ensures Closes(after.log, after.clients, after.threads[u]) {
      ClosersOwnTheList(after.log, after.clients, after.threads[u]);
      if Creates(s.threads[t], x) {
        NewThreadHoldsNothing(s.threads[t], x, ClientsLock);
      }
      if u == t {
        ClosesAfterStep(s, s.threads[t], x);
      } else if Holds(after.threads[u], ClientsLock) {
        OneOwner(s, t, u, ClientsLock);
      }
    }
  }

  // ----- Handles -----

  predicate IsWorker(pc: Pc) {
    pc.WorkLock? || pc.WorkTest? || pc.WorkLockClients? || pc.WorkNext? || IsInClient(pc) || pc.Exited?
  }

  // Waiting for a worker to end.
  predicate Joins(pc: Pc) {
    pc.JoinWait? || pc.TransportJoinWait?
  }

  predicate IsWorkerThread(threads: map<Tid, Pc>, w: Tid) {
    w in threads && IsWorker(threads[w])
  }

  // Only worker threads are joined.
  ghost predicate Handled(s: State) {
    && (s.workerHandle.Some? ==> IsWorkerThread(s.threads, s.workerHandle.value))
    && (forall t :: t in s.threads && Joins(s.threads[t]) ==> IsWorkerThread(s.threads, s.threads[t].worker))
  }

  lemma WorkersStayWorkers(s: State, pc: Pc, x: Choice)
    requires IsWorker(pc)
    ensures IsWorker(NextPc(s, pc, x))
  {
    hide NextCall, NextSignal, NextDestroy;
  }

  lemma JoinersAfterDestroy(s: State, pc: Pc, x: Choice)
    requires Destroying(pc) && Joins(NextDestroy(s, pc, x))
    ensures s.workerHandle == Some(NextDestroy(s, pc, x).worker)
  {
  }

  lemma OthersDoNotJoin(s: State, pc: Pc, x: Choice)
    requires !Destroying(pc)
    ensures !Joins(NextPc(s, pc, x))
  {
    hide NextDestroy;
  }

  lemma JoinersFoundAHandle(s: State, pc: Pc, x: Choice)
    requires Joins(NextPc(s, pc, x))
    ensures s.workerHandle == Some(NextPc(s, pc, x).worker)
  {
    hide NextCall, NextSignal, NextDestroy, NextWork, NextOnRecord;
    if Destroying(pc) {
      JoinersAfterDestroy(s, pc, x);
    } else {
      OthersDoNotJoin(s, pc, x);
    }
  }

  lemma HandleAfterStep(s: State, pc: Pc, x: Choice)
    ensures NextHandle(s, pc, x) == s.workerHandle || NextHandle(s, pc, x) == None
         || (pc.StartCreate? && x.ok && NextHandle(s, pc, x) == Some(x.created))
    ensures Creates(pc, x) ==> !Joins(CreatedPc(pc, x)) && (pc.StartCreate? ==> IsWorker(CreatedPc(pc, x)))
  {
  }

  lemma StepKeepsHandled(s: State, t: Tid, x: Choice)
    requires Handled(s) && Enabled(s, t, x)
    ensures Handled(Step(s, t, x))
  {
    hide NextPc, IsWorker, Joins, NextHandle, CreatedPc;
    var after := Step(s, t, x);
    HandleAfterStep(s, s.threads[t], x);
    if IsWorker(s.threads[t]) {
      WorkersStayWorkers(s, s.threads[t], x);
    }
    if Joins(NextPc(s, s.threads[t], x)) {
      JoinersFoundAHandle(s, s.threads[t], x);
    }
    forall w | IsWorkerThread(s.threads, w) ensures IsWorkerThread(after.threads, w) {
    }
  }

  // ----- Upload threads -----

  // An upload thread is at a position of its own; a marked one is past its mark; a collector looks
  // at a thread that is there, and joins only a marked one.
  predicate UploadOk(threads: map<Tid, Pc>, marked: set<Tid>, t: Tid, pc: Pc) {
    && (IsUpload(pc) ==> pc.upload == t)
    && (t in marked ==> pc.MarkUnlock? || pc.Exiting? || pc.Exited?)
    && (Collects(pc) ==> pc.upload in threads)
    && (pc.GarbageJoin? ==> pc.upload in marked)
  }

  ghost predicate Uploads(s: State) {
    && (forall t :: t in s.threads ==> UploadOk(s.threads, s.marked, t, s.threads[t]))
    && (forall t :: t in s.marked ==> t in s.threads)
  }

  lemma UploadAfterStep(s: State, t: Tid, x: Choice)
    requires Enabled(s, t, x) && UploadOk(s.threads, s.marked, t, s.threads[t])
    ensures UploadOk(Step(s, t, x).threads, Step(s, t, x).marked, t, NextPc(s, s.threads[t], x))
    ensures s.threads[t].MarkIn? ==> s.threads[t].upload == t
  {
    hide NextOwners, NextClients, NextHandle, NextLog, Wants;
  }

  lemma StepKeepsUploads(s: State, t: Tid, x: Choice)
    requires Uploads(s) && Enabled(s, t, x)
    ensures Uploads(Step(s, t, x))
  {
    hide NextPc, NextOwners, NextClients, NextHandle, NextLog, Wants;
    var after := Step(s, t, x);
    UploadAfterStep(s, t, x);
    forall u | u in after.threads ensures UploadOk(after.threads, after.marked, u, after.threads[u]) {
      assert u in s.threads ==> UploadOk(s.threads, s.marked, u, s.threads[u]);
    }
  }

  // ----- Every reachable state -----

  ghost predicate Inv(s: State) {
    Locked(s) && Walking(s) && Listed(s) && Closing(s) && Handled(s) && Uploads(s)
  }

  lemma InitialIsSafe(s: State)
    requires Initial(s)
    ensures Inv(s)
  {
  }

  lemma StepKeepsInv(s: State, t: Tid, x: Choice)
    requires Inv(s) && Enabled(s, t, x)
    ensures Inv(Step(s, t, x))
  {
    hide Locked, Walking, Listed, Closing, Handled, Uploads, Step;
    StepKeepsLocked(s, t, x);
    StepKeepsWalking(s, t, x);
    StepKeepsListed(s, t, x);
    StepKeepsClosing(s, t, x);
    StepKeepsHandled(s, t, x);
    StepKeepsUploads(s, t, x);
  }

  lemma {:induction false} RunKeepsInv(s: State, steps: seq<(Tid, Choice)>, t: State)
    requires Inv(s) && IsRun(s, steps, t)
    ensures Inv(t)
    decreases |steps|
  {
    hide Inv, Step, Enabled;
    if steps != [] {
      StepKeepsInv(s, steps[0].0, steps[0].1);
      RunKeepsInv(Step(s, steps[0].0, steps[0].1), steps[1..], t);
    }
  }

  lemma ReachableIsSafe(initial: State, steps: seq<(Tid, Choice)>, s: State)
    requires IsRun(initial, steps, s)
    ensures Initial(initial) ==> Inv(s)
  {
    hide Inv, Initial;
    if Initial(initial) {
      InitialIsSafe(initial);
      RunKeepsInv(initial, steps, s);
    }
  }

  // ----- No use after deregistration -----

  lemma {:induction false} RegisteredAgain(log: seq<Entry>, i: nat, c: Client) returns (k: nat)
    requires i < |log| && log[i] == Ended(c) && Registered(log, c)
    ensures i < k < |log| && log[k] == Added(c)
  {
    if log[|log| - 1] == Added(c) {
      k := |log| - 1;
    } else {
      k := RegisteredAgain(log[..|log| - 1], i, c);
    }
  }

  // In every interleaving: after the signalling call for a client has returned, no worker starts
  // on that client before it has been registered again.
  lemma NoWorkAfterReturn(initial: State, steps: seq<(Tid, Choice)>, s: State, i: nat, j: nat, c: Client)
    returns (k: nat)
    requires Initial(initial) && IsRun(initial, steps, s)
    requires i < j < |s.log| && s.log[i] == Returned(c) && s.log[j] == Work(c)
    ensures i < k < j && s.log[k] == Added(c)
  {
    hide Locked, Walking, Closing, Handled, Uploads, Initial, Step, Enabled, Registered, NoRepeats;
    ReachableIsSafe(initial, steps, s);
    assert EndsJustBefore(s.log, i) && Registered(s.log[..j], c);
    k := RegisteredAgain(s.log[..j], i - 1, c);
  }

  // A thread inside a client's work holds the clients lock, and that client is registered.
  lemma InsideMeansRegistered(initial: State, steps: seq<(Tid, Choice)>, s: State, t: Tid)
    requires Initial(initial) && IsRun(initial, steps, s)
    requires t in s.threads && IsInClient(s.threads[t])
    ensures SpotOf(s.threads[t]).value.client in s.clients
    ensures ClientsLock in s.owners && s.owners[ClientsLock] == t
  {
    ReachableIsSafe(initial, steps, s);
    assert Walks(s.clients, s.threads[t]);
    assert Holds(s.threads[t], ClientsLock);
  }

  // So while a client is being erased, and until it is registered again, no thread is inside it.
  lemma NobodyInsideTheEnded(initial: State, steps: seq<(Tid, Choice)>, s: State, t: Tid, c: Client)
    requires Initial(initial) && IsRun(initial, steps, s)
    requires !Registered(s.log, c) && t in s.threads
    ensures !(IsInClient(s.threads[t]) && SpotOf(s.threads[t]).value.client == c)
  {
    ReachableIsSafe(initial, steps, s);
    assert Walks(s.clients, s.threads[t]);
  }

  // A client's end sets the stop flag only while no client is registered.
  lemma StoppedOnlyWhenUnused(initial: State, steps: seq<(Tid, Choice)>, s: State, t: Tid, x: Choice)
    requires Initial(initial) && IsRun(initial, steps, s) && Enabled(s, t, x)
    ensures !s.stopThread && Step(s, t, x).stopThread ==>
      s.threads[t].TransportStopIn? || (s.clients == [] && ClientsLock in s.owners && s.owners[ClientsLock] == t)
  {
    hide Walking, Listed, Handled, NextPc, NextLog;
    ReachableIsSafe(initial, steps, s);
    var pc := s.threads[t];
    assert Closes(s.log, s.clients, pc) && (pc.StopIn? ==> Holds(pc, ClientsLock));
  }

  // ----- Deadlock freedom -----

  lemma {:induction false} UnusedTid(used: set<Tid>) returns (bound: Tid)
    ensures forall t :: t in used ==> t < bound
  {
    if used == {} {
      bound := 0;
    } else {
      var t :| t in used;
      var below := UnusedTid(used - {t});
      bound := if t < below then below else t + 1;
      assert used == (used - {t}) + {t};
    }
  }

  // A thread waits for the owner of the lock it wants, or for the thread it joins.
  ghost predicate WaitsFor(s: State, t: Tid, u: Tid) {
    && t in s.threads && u in s.threads
    && ((Wants(s.threads[t]).Some? && Wants(s.threads[t]).value in s.owners && s.owners[Wants(s.threads[t]).value] == u)
        || (JoinedBy(s.threads[t]) == Some(u) && s.threads[u] != Exited))
  }

  // Those that join a worker, then those that want the clients lock, the transport lock, or a record's
  // lock to collect it; then those that join an upload thread; then the upload threads that want the
  // lock of their record; then those that wait for nothing.
  function Rank(pc: Pc): (r: nat)
    ensures r <= 6
  {
    if Joins(pc) then 0
    else if Wants(pc) == Some(ClientsLock) then 1
    else if Wants(pc) == Some(TransportLock) then 2
    else if pc.GarbageWant? then 3
    else if pc.GarbageJoin? then 4
    else if pc.MarkLock? then 5
    else 6
  }

  lemma RanksOfPositions(pc: Pc)
    ensures Holds(pc, ClientsLock) ==> Rank(pc) >= 2
    ensures Holds(pc, TransportLock) ==> Rank(pc) >= 3
    ensures IsWorker(pc) ==> Rank(pc) >= 1
    ensures !IsWorker(Idle)
  {
    hide Releases;
  }

  lemma GarbageHolders(pc: Pc, u: Tid)
    requires Holds(pc, GarbageLock(u))
    ensures if pc.GarbageJoin? then pc.upload == u else Rank(pc) == 6
  {
  }

  lemma IdleHoldsNothing(pc: Pc, lock: Lock)
    requires Holds(pc, lock)
    ensures pc != Idle && pc != Exited
  {
  }

  lemma WantersRanks(pc: Pc)
    ensures Wants(pc) == Some(ClientsLock) ==> Rank(pc) == 1
    ensures Wants(pc) == Some(TransportLock) ==> Rank(pc) == 2
    ensures Wants(pc).Some? && Wants(pc).value.GarbageLock? ==>
      (pc.GarbageWant? || pc.MarkLock?) && pc.upload == Wants(pc).value.upload && Rank(pc) == if pc.GarbageWant? then 3 else 5
    ensures Joins(pc) ==> Rank(pc) == 0 && JoinedBy(pc) == Some(pc.worker) && Wants(pc).None?
    ensures pc.GarbageJoin? ==> Rank(pc) == 4 && JoinedBy(pc) == Some(pc.upload) && Wants(pc).None?
    ensures JoinedBy(pc).Some? ==> Joins(pc) || pc.GarbageJoin?
    ensures pc.Exiting? ==> Rank(pc) == 6
  {
  }

  lemma HoldersDoNotWait(pc: Pc, lock: Lock)
    requires Holds(pc, lock)
    ensures !Joins(pc) && Wants(pc) != Some(lock)
    ensures Wants(pc).Some? ==> Level(lock) < Level(Wants(pc).value)
    ensures pc.GarbageJoin? && lock.GarbageLock? ==> lock.upload == pc.upload
  {
  }

  // The order in which locks are taken.
  function Level(lock: Lock): nat {
    match lock
    case ClientsLock => 0
    case TransportLock => 1
    case GarbageLock(_) => 2
  }

  // A collector that joins an upload thread joins one that has let go of everything and only exits.
  lemma JoinedUploadExits(s: State, t: Tid)
    requires Locked(s) && Uploads(s) && t in s.threads && s.threads[t].GarbageJoin?
    ensures s.threads[t].upload in s.threads
    ensures s.threads[s.threads[t].upload].Exiting? || s.threads[s.threads[t].upload] == Exited
  {
    var pc := s.threads[t];
    var u := pc.upload;
    assert UploadOk(s.threads, s.marked, t, pc) && UploadOk(s.threads, s.marked, u, s.threads[u]);
    assert Holds(pc, GarbageLock(u));
    if s.threads[u].MarkUnlock? {
      assert Holds(s.threads[u], GarbageLock(u));
      OneOwner(s, t, u, GarbageLock(u));
    }
  }

  // A lock is wanted only by a thread whose own locks come before it in the order: the clients lock,
  // then the transport lock, then the lock of one upload record. No thread joins a worker while it
  // holds a lock. A collector does join an upload thread while it holds locks; that thread is past
  // all of them.
  lemma LocksAreOrdered(initial: State, steps: seq<(Tid, Choice)>, s: State, t: Tid, lock: Lock)
    requires Initial(initial) && IsRun(initial, steps, s) && t in s.threads
    ensures lock in s.owners && s.owners[lock] == t ==>
      && !Joins(s.threads[t])
      && (Wants(s.threads[t]).Some? ==> Level(lock) < Level(Wants(s.threads[t]).value))
    ensures s.threads[t].GarbageJoin? ==>
      var u := s.threads[t].upload;
      u in s.threads && (s.threads[u].Exiting? || s.threads[u] == Exited)
  {
    hide Walking, Listed, Closing, Handled, Uploads, Holds, Wants, Joins, Initial, Step, Enabled;
    ReachableIsSafe(initial, steps, s);
    if lock in s.owners && s.owners[lock] == t {
      HoldersDoNotWait(s.threads[t], lock);
    }
    if s.threads[t].GarbageJoin? {
      JoinedUploadExits(s, t);
    }
  }

  // The owner of a record's lock waits for no one, or for the thread of that record to exit.
  lemma OwnersOfGarbage(s: State, t: Tid, u: Tid)
    requires Locked(s) && Uploads(s) && t in s.threads && Holds(s.threads[t], GarbageLock(u))
    ensures Rank(s.threads[t]) >= 4
    ensures s.threads[t].GarbageJoin? ==> u in s.threads && !s.threads[u].MarkLock?
    ensures !s.threads[t].GarbageJoin? ==> Rank(s.threads[t]) == 6
  {
    hide Locked, Uploads;
    GarbageHolders(s.threads[t], u);
    WantersRanks(s.threads[t]);
    if s.threads[t].GarbageJoin? {
      JoinedUploadExits(s, t);
    }
  }

  lemma OwnerHolds(s: State, lock: Lock)
    requires Locked(s) && lock in s.owners
    ensures s.owners[lock] in s.threads && Holds(s.threads[s.owners[lock]], lock)
  {
    assert s.owners[lock] == s.owners[lock];
  }

  lemma UploadInPlace(s: State, t: Tid)
    requires Uploads(s) && t in s.threads && s.threads[t].MarkLock?
    ensures s.threads[t].upload == t
  {
    assert UploadOk(s.threads, s.marked, t, s.threads[t]);
  }

  lemma LockWaitClimbs(s: State, t: Tid, u: Tid)
    requires Locked(s) && Uploads(s) && t in s.threads && u in s.threads
    requires Wants(s.threads[t]).Some? && Wants(s.threads[t]).value in s.owners && s.owners[Wants(s.threads[t]).value] == u
    ensures Rank(s.threads[t]) < Rank(s.threads[u]) && s.threads[u] != Idle && s.threads[u] != Exited
  {
    hide Locked, Uploads, Holds, Wants, Rank, IsWorker;
    var lock := Wants(s.threads[t]).value;
    OwnerHolds(s, lock);
    WantersRanks(s.threads[t]);
    RanksOfPositions(s.threads[u]);
    IdleHoldsNothing(s.threads[u], lock);
    if lock.GarbageLock? {
      OwnersOfGarbage(s, u, lock.upload);
      if s.threads[t].MarkLock? {
        UploadInPlace(s, t);
      }
    }
  }

  lemma OnlyWorkersAreJoined(s: State, t: Tid)
    requires Handled(s) && t in s.threads && Joins(s.threads[t])
    ensures IsWorkerThread(s.threads, s.threads[t].worker)
  {
  }

  // Whatever a thread waits for is under way and closer to moving on than the thread that waits.
  lemma WaitingClimbs(s: State, t: Tid, u: Tid)
    requires Inv(s) && WaitsFor(s, t, u)
    ensures Rank(s.threads[t]) < Rank(s.threads[u])
    ensures s.threads[u] != Idle && s.threads[u] != Exited
  {
    hide Locked, Uploads, Handled, Holds, IsWorker, Walking, Listed, Closing, Rank, Wants, JoinedBy;
    WantersRanks(s.threads[t]);
    RanksOfPositions(s.threads[u]);
    WantersRanks(s.threads[u]);
    if Wants(s.threads[t]).Some? && Wants(s.threads[t]).value in s.owners && s.owners[Wants(s.threads[t]).value] == u {
      LockWaitClimbs(s, t, u);
    } else if Joins(s.threads[t]) {
      OnlyWorkersAreJoined(s, t);
    } else {
      JoinedUploadExits(s, t);
    }
  }

  // Each thread of a chain waits for the next.
  ghost predicate IsWaitChain(s: State, chain: seq<Tid>) {
    forall i, j :: 0 <= i && j == i + 1 && j < |chain| ==> WaitsFor(s, chain[i], chain[j])
  }

  lemma {:induction false} ChainClimbs(s: State, chain: seq<Tid>)
    requires Inv(s) && IsWaitChain(s, chain) && |chain| >= 2
    ensures chain[0] in s.threads && chain[|chain| - 1] in s.threads
    ensures Rank(s.threads[chain[0]]) < Rank(s.threads[chain[|chain| - 1]])
  {
    hide Inv, Rank, WaitsFor;
    var n := |chain|;
    assert WaitsFor(s, chain[n - 2], chain[n - 1]);
    Waiters(s, chain[n - 2], chain[n - 1]);
    WaitingClimbs(s, chain[n - 2], chain[n - 1]);
    if n > 2 {
      assert IsWaitChain(s, chain[..n - 1]);
      ChainClimbs(s, chain[..n - 1]);
    }
  }

  lemma Waiters(s: State, t: Tid, u: Tid)
    requires WaitsFor(s, t, u)
    ensures t in s.threads && u in s.threads
  {
  }

  // No reachable state has a cyclic wait.
  lemma NoCyclicWait(initial: State, steps: seq<(Tid, Choice)>, s: State, chain: seq<Tid>)
    requires Initial(initial) && IsRun(initial, steps, s)
    requires |chain| >= 2 && IsWaitChain(s, chain)
    ensures chain[0] != chain[|chain| - 1]
  {
    ReachableIsSafe(initial, steps, s);
    ChainClimbs(s, chain);
  }

  lemma StepsUnlessWaiting(s: State, t: Tid)
    requires Inv(s) && t in s.threads && s.threads[t] != Exited
    ensures (exists x :: Enabled(s, t, x)) || (exists u :: WaitsFor(s, t, u))
  {
    hide Locked, IsWorker, Holds, Walking, Listed, Closing, Uploads;
    var pc := s.threads[t];
    WantersRanks(pc);
    if Wants(pc).Some? && Wants(pc).value in s.owners {
      OwnerHolds(s, Wants(pc).value);
      assert WaitsFor(s, t, s.owners[Wants(pc).value]);
    } else if JoinedBy(pc).Some? && !HasExited(s, JoinedBy(pc).value) {
      if pc.GarbageJoin? {
        JoinedUploadExits(s, t);
      }
      assert WaitsFor(s, t, JoinedBy(pc).value);
    } else {
      var created := UnusedTid(s.threads.Keys);
      assert Enabled(s, t, Choice(Serialized, false, created, None));
    }
  }

  // Every step changes the position of the thread that takes it.
  lemma StepsMove(s: State, pc: Pc, x: Choice)
    requires pc != Exited
    ensures NextPc(s, pc, x) != pc
  {
  }

  // A thread under way can take a step itself, or waits, perhaps through others, for one that can.
  lemma {:induction false} SomeThreadSteps(s: State, t: Tid) returns (chain: seq<Tid>, x: Choice)
    requires Inv(s) && t in s.threads && s.threads[t] != Exited
    ensures chain != [] && chain[0] == t && IsWaitChain(s, chain)
    ensures var last := chain[|chain| - 1];
            Enabled(s, last, x) && NextPc(s, s.threads[last], x) != s.threads[last]
    decreases 6 - Rank(s.threads[t])
  {
    hide Inv, Rank, WaitsFor, Wants, JoinedBy, HasExited, NextPc;
    if y :| Enabled(s, t, y) {
      chain, x := [t], y;
      StepsMove(s, s.threads[t], x);
    } else {
      StepsUnlessWaiting(s, t);
      var w :| WaitsFor(s, t, w);
      Waiters(s, t, w);
      WaitingClimbs(s, t, w);
      var rest;
      rest, x := SomeThreadSteps(s, w);
      chain := [t] + rest;
      forall i, j | 0 <= i && j == i + 1 && j < |chain| ensures WaitsFor(s, chain[i], chain[j]) {
        assert i > 0 ==> chain[i] == rest[i - 1] && chain[j] == rest[j - 1];
      }
    }
  }
}
