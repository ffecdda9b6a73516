/** How the confirmations of an unshared client reach its user: the low-level client pushes them on a
    list under the client's lock, the worker moves the list away and dispatches it unlocked, and
    destruction runs what is left. The machine's steps are those of single threads. */
module HandOff {
  import opened Options
  import opened Sequences
  import opened Ledger
  import M = Telemetry

  type Tid = nat
  type Call = UserCall<M.Confirmation>

  // An entry of the saved list: a confirmation of a sent message, or a callback of another kind.
  datatype Item = Confirm(call: Call) | OtherKind(id: nat)

  datatype Who = SenderThread(id: Tid) | WorkerThread | DestroyerThread

  // A caller of the client: starting the worker, then one low-level call under the lock.
  datatype SenderPc = Idle | SendStart | SendLock | SendIn | SendUnlock

  // ScheduleWork_Thread. Moving the list away is two steps: it is copied, then emptied.
  datatype WorkerPc =
    | NotStarted
    | WorkLock
    | WorkTest
    | WorkIn
    | WorkCopied
    | WorkUnlock(moved: bool)
    | DispatchLock
    | DispatchIn
    | Dispatch
    | Exited

  // IoTHubClientCore_Destroy.
  datatype DestroyerPc =
    | Absent
    | DestroyLock
    | DestroyIn
    | DestroyJoin
    | FinalLock
    | FinalIn
    | FinalUnlock
    | Drain(index: nat)
    | Done

  // `batch` is what the worker still has to dispatch; `ran` lists the confirmations run.
  datatype State = State(
    senders: map<Tid, SenderPc>,
    worker: WorkerPc,
    destroyer: DestroyerPc,
    owner: Option<Who>,
    stopThread: bool,
    lower: M.State,
    saved: seq<Item>,
    batch: seq<Item>,
    ran: seq<Call>)

  // What the scheduler and the environment choose. `event` is what happens to the low-level client
  // in the step, if anything; `pushed` is what its callbacks then push.
  datatype Choice = Choice(who: Who, event: Option<M.Event>, pushed: seq<Item>, ok: bool)

  function Confirms(items: seq<Item>): seq<Call> {
    if items == [] then []
    else
      var last := items[|items| - 1];
      Confirms(items[..|items| - 1]) + (if last.Confirm? then [last.call] else [])
  }

  // ----- Steps -----

  predicate SenderWants(pc: SenderPc) { pc.SendLock? }
  predicate WorkerWants(pc: WorkerPc) { pc.WorkLock? || pc.DispatchLock? }
  predicate DestroyerWants(pc: DestroyerPc) { pc.DestroyLock? || pc.FinalLock? }

  predicate WantsLock(s: State, who: Who) {
    match who
    case SenderThread(t) => t in s.senders && SenderWants(s.senders[t])
    case WorkerThread => WorkerWants(s.worker)
    case DestroyerThread => DestroyerWants(s.destroyer)
  }

  predicate ReleasesLock(s: State, who: Who) {
    match who
    case SenderThread(t) => t in s.senders && s.senders[t].SendUnlock?
    case WorkerThread => (s.worker.WorkTest? && s.stopThread) || s.worker.WorkUnlock? || s.worker.DispatchIn?
    case DestroyerThread => s.destroyer.DestroyIn? || s.destroyer.FinalUnlock?
  }

  predicate HoldsLock(s: State, who: Who) {
    match who
    case SenderThread(t) => t in s.senders && (s.senders[t].SendIn? || s.senders[t].SendUnlock?)
    case WorkerThread =>
      s.worker.WorkTest? || s.worker.WorkIn? || s.worker.WorkCopied? || s.worker.WorkUnlock? || s.worker.DispatchIn?
    case DestroyerThread => s.destroyer.DestroyIn? || s.destroyer.FinalIn? || s.destroyer.FinalUnlock?
  }

  // What the holder of the lock may make happen below: senders send and set options, the worker and
  // the destroyer let the transport work, and destruction ends with the drain.
  predicate MayHappen(s: State, who: Who, e: M.Event) {
    match who
    case SenderThread(t) => t in s.senders && s.senders[t].SendIn? && (e.Send? || e.SetMessageTimeout?)
    case WorkerThread => s.worker.WorkIn? && !e.Send? && !e.SetMessageTimeout? && !e.Drain?
    case DestroyerThread =>
      && s.destroyer.FinalIn? && !e.Send? && !e.SetMessageTimeout? && !e.Timeouts?
      && (e.Drain? ==> s.lower.inFlight == multiset{})
  }

  // The callbacks of an event are pushed in order, perhaps among callbacks of other kinds.
  predicate EventEnabled(s: State, x: Choice) {
    match x.event
    case None => Confirms(x.pushed) == [] && (x.pushed == [] || (x.who.SenderThread? && HoldsLock(s, x.who)))
    case Some(e) =>
      && MayHappen(s, x.who, e) && M.Enabled(s.lower, e)
      && s.lower.calls + Confirms(x.pushed) == M.Apply(s.lower, e).calls
  }

  predicate Ready(s: State, who: Who) {
    match who
    case SenderThread(t) => t in s.senders && (s.senders[t].Idle? ==> s.destroyer == Absent)
    case WorkerThread => s.worker != NotStarted && s.worker != Exited
    case DestroyerThread =>
      && s.destroyer != Done
      && (s.destroyer == DestroyJoin ==> s.worker == NotStarted || s.worker == Exited)
  }

  // No call is made while the client is being destroyed.
  ghost predicate Enabled(s: State, x: Choice) {
    && Ready(s, x.who)
    && (WantsLock(s, x.who) ==> s.owner == None)
    && (x.who.DestroyerThread? && s.destroyer == Absent ==> forall t :: t in s.senders ==> s.senders[t] == Idle)
    && EventEnabled(s, x)
  }

  function NextSender(s: State, pc: SenderPc, x: Choice): SenderPc {
    match pc
    case Idle => SendStart
    case SendStart => if s.worker.NotStarted? && !x.ok then Idle else SendLock
    case SendLock => SendIn
    case SendIn => SendUnlock
    case SendUnlock => Idle
  }

  function NextWorker(s: State, x: Choice): WorkerPc {
    match s.worker
    case NotStarted => NotStarted
    case WorkLock => WorkTest
    case WorkTest => if s.stopThread then Exited else WorkIn
    case WorkIn => if x.event.Some? then WorkIn else if x.ok then WorkCopied else WorkUnlock(false)
    case WorkCopied => WorkUnlock(true)
    case WorkUnlock(moved) => if moved then DispatchLock else WorkLock
    case DispatchLock => DispatchIn
    case DispatchIn => Dispatch
    case Dispatch => if s.batch == [] then WorkLock else Dispatch
    case Exited => Exited
  }

  function NextDestroyer(s: State, x: Choice): DestroyerPc {
    match s.destroyer
    case Absent => DestroyLock
    case DestroyLock => DestroyIn
    case DestroyIn => DestroyJoin
    case DestroyJoin => FinalLock
    case FinalLock => FinalIn
    case FinalIn => if x.event.Some? && x.event.value.Drain? then FinalUnlock else FinalIn
    case FinalUnlock => Drain(0)
    case Drain(i) => if i < |s.saved| then Drain(i + 1) else Done
    case Done => Done
  }

  function NextOwner(s: State, who: Who): Option<Who> {
    if WantsLock(s, who) then Some(who) else if ReleasesLock(s, who) then None else s.owner
  }

  function NextLower(s: State, x: Choice): M.State
    requires EventEnabled(s, x)
  {
    if x.event.Some? then M.Apply(s.lower, x.event.value) else s.lower
  }

  function SenderStep(s: State, t: Tid, x: Choice): State
    requires t in s.senders && EventEnabled(s, x)
  {
    var pc := s.senders[t];
    var creates := pc.SendStart? && s.worker.NotStarted?;
    s.(senders := s.senders[t := NextSender(s, pc, x)],
       owner := NextOwner(s, x.who),
       worker := if creates && x.ok then WorkLock else s.worker,
       stopThread := s.stopThread && !creates,
       lower := NextLower(s, x),
       saved := s.saved + x.pushed)
  }

  function WorkerStep(s: State, x: Choice): State
    requires EventEnabled(s, x)
  {
    var runs := s.worker.Dispatch? && s.batch != [];
    s.(worker := NextWorker(s, x),
       owner := NextOwner(s, x.who),
       lower := NextLower(s, x),
       saved := if s.worker.WorkCopied? then [] else s.saved + x.pushed,
       batch := if NextWorker(s, x).WorkCopied? then s.saved else if runs then s.batch[1..] else s.batch,
       ran := if runs then s.ran + Confirms([s.batch[0]]) else s.ran)
  }

  function DestroyerStep(s: State, x: Choice): State
    requires EventEnabled(s, x)
  {
    var runs := s.destroyer.Drain? && s.destroyer.index < |s.saved|;
    s.(destroyer := NextDestroyer(s, x),
       owner := NextOwner(s, x.who),
       stopThread := s.stopThread || (s.destroyer.DestroyIn? && !s.worker.NotStarted?),
       lower := NextLower(s, x),
       saved := s.saved + x.pushed,
       ran := if runs then s.ran + Confirms([s.saved[s.destroyer.index]]) else s.ran)
  }

  function Step(s: State, x: Choice): State
    requires Ready(s, x.who) && EventEnabled(s, x)
  {
    match x.who
    case SenderThread(t) => SenderStep(s, t, x)
    case WorkerThread => WorkerStep(s, x)
    case DestroyerThread => DestroyerStep(s, x)
  }

  // A client just created, and the threads of its user.
  ghost predicate Initial(s: State) {
    && (forall t :: t in s.senders ==> s.senders[t] == Idle)
    && s.worker == NotStarted && s.destroyer == Absent && s.owner == None
    && s.lower == M.INITIAL && s.saved == [] && s.batch == [] && s.ran == []
  }

  ghost predicate IsRun(s: State, choices: seq<Choice>, t: State)
    decreases |choices|
  {
    if choices == [] then s == t
    else Enabled(s, choices[0]) && IsRun(Step(s, choices[0]), choices[1..], t)
  }

  // ----- Mutual exclusion -----

  ghost predicate Locked(s: State) {
    forall who :: s.owner == Some(who) <==> HoldsLock(s, who)
  }

  lemma HoldsAfterStep(s: State, x: Choice)
    requires Ready(s, x.who) && EventEnabled(s, x)
    ensures HoldsLock(Step(s, x), x.who)
        <==> WantsLock(s, x.who) || (!ReleasesLock(s, x.who) && HoldsLock(s, x.who))
    ensures ReleasesLock(s, x.who) ==> HoldsLock(s, x.who) && !WantsLock(s, x.who)
    ensures Step(s, x).owner == NextOwner(s, x.who)
  {
    hide M.Apply, M.Enabled, Confirms;
  }

  lemma OthersHoldAfterStep(s: State, x: Choice, who: Who)
    requires Ready(s, x.who) && EventEnabled(s, x) && who != x.who
    ensures HoldsLock(Step(s, x), who) <==> HoldsLock(s, who)
  {
    hide M.Apply, M.Enabled, Confirms;
  }

  lemma StepKeepsLocked(s: State, x: Choice)
    requires Locked(s) && Enabled(s, x)
    ensures Locked(Step(s, x))
  {
    hide Step, HoldsLock, WantsLock, ReleasesLock, EventEnabled;
    var after := Step(s, x);
    HoldsAfterStep(s, x);
    forall who ensures after.owner == Some(who) <==> HoldsLock(after, who) {
      assert s.owner == Some(who) <==> HoldsLock(s, who);
      assert s.owner == Some(x.who) <==> HoldsLock(s, x.who);
      if who != x.who {
        OthersHoldAfterStep(s, x, who);
      }
    }
  }

  // ----- Phases -----

  predicate PastJoin(pc: DestroyerPc) {
    pc.FinalLock? || pc.FinalIn? || pc.FinalUnlock? || pc.Drain? || pc.Done?
  }

  predicate PastDrain(pc: DestroyerPc) {
    pc.FinalUnlock? || pc.Drain? || pc.Done?
  }

  predicate HasBatch(pc: WorkerPc) {
    pc.WorkCopied? || pc == WorkUnlock(true) || pc.DispatchLock? || pc.DispatchIn? || pc.Dispatch?
  }

  // During destruction no call is under way; past the join there is no worker; past the drain the
  // low-level client has nothing left.
  ghost predicate Phased(s: State) {
    && (s.destroyer != Absent ==> forall t :: t in s.senders ==> s.senders[t] == Idle)
    && (PastJoin(s.destroyer) ==> s.worker == NotStarted || s.worker == Exited)
    && (PastDrain(s.destroyer) ==> s.lower.waiting == [] && s.lower.inFlight == multiset{})
    && (s.destroyer.Drain? ==> s.destroyer.index <= |s.saved|)
    && (s.batch != [] ==> HasBatch(s.worker))
  }

  lemma SenderKeepsPhased(s: State, t: Tid, x: Choice)
    requires Phased(s) && Enabled(s, x) && x.who == SenderThread(t)
    ensures Phased(SenderStep(s, t, x))
  {
    hide Confirms, EventEnabled, NextLower, NextOwner, WantsLock;
    assert s.senders[t] != Idle ==> s.destroyer == Absent;
  }

  lemma WorkerKeepsPhased(s: State, x: Choice)
    requires Phased(s) && Enabled(s, x) && x.who == WorkerThread
    ensures Phased(WorkerStep(s, x))
  {
    hide Confirms, EventEnabled, NextLower, NextOwner, WantsLock;
    assert !PastJoin(s.destroyer);
  }

  lemma DrainedWhen(s: State, x: Choice)
    requires EventEnabled(s, x) && x.who == DestroyerThread && x.event.Some? && x.event.value.Drain?
    ensures NextLower(s, x).waiting == [] && NextLower(s, x).inFlight == multiset{}
  {
    hide Confirms;
  }

  lemma DestroyerKeepsPhased(s: State, x: Choice)
    requires Phased(s) && Enabled(s, x) && x.who == DestroyerThread
    ensures Phased(DestroyerStep(s, x))
  {
    hide Confirms, EventEnabled, NextLower, NextOwner, WantsLock;
    DestroyerPushesInside(s, x);
    if x.event.Some? && x.event.value.Drain? {
      DrainedWhen(s, x);
    }
  }

  lemma StepKeepsPhased(s: State, x: Choice)
    requires Phased(s) && Enabled(s, x)
    ensures Phased(Step(s, x))
  {
    hide Phased, EventEnabled, SenderStep, WorkerStep, DestroyerStep;
    match x.who
    case SenderThread(t) => SenderKeepsPhased(s, t, x);
    case WorkerThread => WorkerKeepsPhased(s, x);
    case DestroyerThread => DestroyerKeepsPhased(s, x);
  }

  // ----- What has been confirmed and where it is -----

  lemma {:induction false} ConfirmsJoin(a: seq<Item>, b: seq<Item>)
    ensures Confirms(a + b) == Confirms(a) + Confirms(b)
  {
    if b == [] {
      assert a + b == a;
      assert Confirms(a) + [] == Confirms(a);
    } else {
      var earlier, last := b[..|b| - 1], b[|b| - 1];
      AppendLast(a, earlier, last);
      assert b == earlier + [last];
      ConfirmsJoin(a, earlier);
      Associate(Confirms(a), Confirms(earlier), if last.Confirm? then [last.call] else []);
    }
  }

  lemma FirstConfirmed(items: seq<Item>)
    requires items != []
    ensures Confirms(items) == Confirms([items[0]]) + Confirms(items[1..])
  {
    assert items == [items[0]] + items[1..];
    ConfirmsJoin([items[0]], items[1..]);
  }

  // What is still to be run, oldest first. A copied list is counted once.
  function Pending(s: State): seq<Item> {
    match s.destroyer
    case Drain(i) => if i <= |s.saved| then s.saved[i..] else []
    case Done => []
    case _ => if s.worker.WorkCopied? then s.saved else s.batch + s.saved
  }

  // The confirmations run, followed by those pending, are those the low-level client issued.
  ghost predicate Flows(s: State) {
    && s.ran + Confirms(Pending(s)) == s.lower.calls
    && (s.worker.WorkCopied? ==> s.batch == s.saved)
  }

  lemma PushedFlows(ran: seq<Call>, pending: seq<Item>, calls: seq<Call>, pushed: seq<Item>)
    requires ran + Confirms(pending) == calls
    ensures ran + Confirms(pending + pushed) == calls + Confirms(pushed)
  {
    ConfirmsJoin(pending, pushed);
    Associate(ran, Confirms(pending), Confirms(pushed));
  }

  lemma RunFlows(ran: seq<Call>, pending: seq<Item>, calls: seq<Call>)
    requires ran + Confirms(pending) == calls && pending != []
    ensures (ran + Confirms([pending[0]])) + Confirms(pending[1..]) == calls
  {
    FirstConfirmed(pending);
    Associate(ran, Confirms([pending[0]]), Confirms(pending[1..]));
  }

  lemma LowerAfterStep(s: State, x: Choice)
    requires EventEnabled(s, x)
    ensures NextLower(s, x).calls == s.lower.calls + Confirms(x.pushed)
    ensures x.pushed != [] ==> HoldsLock(s, x.who)
  {
    hide M.Apply, M.Enabled, Confirms;
    if x.event.None? {
      assert s.lower.calls + [] == s.lower.calls;
    }
  }

  lemma SenderKeepsFlows(s: State, t: Tid, x: Choice)
    requires Flows(s) && Locked(s) && Phased(s) && Enabled(s, x) && x.who == SenderThread(t)
    ensures Flows(SenderStep(s, t, x))
  {
    hide Confirms, EventEnabled, NextLower, NextSender;
    LowerAfterStep(s, x);
    assert s.destroyer == Absent;
    if s.worker.WorkCopied? {
      assert HoldsLock(s, WorkerThread);
      assert x.pushed == [];
      assert s.saved + [] == s.saved;
      PushedFlows(s.ran, s.saved, s.lower.calls, []);
    } else {
      PushedFlows(s.ran, s.batch + s.saved, s.lower.calls, x.pushed);
      Associate(s.batch, s.saved, x.pushed);
    }
  }

  lemma WorkKeepsFlows(s: State, x: Choice)
    requires Flows(s) && EventEnabled(s, x) && x.who == WorkerThread && s.worker.WorkIn? && s.batch == []
    requires !PastJoin(s.destroyer)
    ensures Flows(WorkerStep(s, x))
  {
    hide Confirms, EventEnabled, NextLower;
    LowerAfterStep(s, x);
    WorkerPushesInside(s, x);
    assert [] + s.saved == s.saved && s.saved + [] == s.saved;
    PushedFlows(s.ran, s.saved, s.lower.calls, x.pushed);
    assert [] + (s.saved + x.pushed) == s.saved + x.pushed;
  }

  lemma DispatchKeepsFlows(s: State, x: Choice)
    requires Flows(s) && EventEnabled(s, x) && x.who == WorkerThread && s.worker.Dispatch? && s.batch != []
    requires !PastJoin(s.destroyer)
    ensures Flows(WorkerStep(s, x))
  {
    hide Confirms, EventEnabled, NextLower;
    WorkerPushesInside(s, x);
    assert s.saved + [] == s.saved;
    RunFlows(s.ran, s.batch + s.saved, s.lower.calls);
    assert (s.batch + s.saved)[1..] == s.batch[1..] + s.saved;
  }

  lemma WorkerKeepsFlows(s: State, x: Choice)
    requires Flows(s) && Phased(s) && Enabled(s, x) && x.who == WorkerThread
    ensures Flows(WorkerStep(s, x))
  {
    hide Confirms, EventEnabled, NextLower;
    if s.worker.WorkIn? {
      WorkKeepsFlows(s, x);
    } else if s.worker.Dispatch? && s.batch != [] {
      DispatchKeepsFlows(s, x);
    } else {
      WorkerPushesInside(s, x);
      assert s.saved + [] == s.saved && s.batch + [] == s.batch;
    }
  }

  lemma WorkerPushesInside(s: State, x: Choice)
    requires EventEnabled(s, x) && x.who == WorkerThread
    ensures !s.worker.WorkIn? ==> x.event.None?
    ensures x.event.None? ==> x.pushed == [] && NextLower(s, x) == s.lower
    ensures x.event.Some? ==> NextWorker(s, x) == WorkIn
  {
    hide M.Apply, M.Enabled, Confirms;
  }

  lemma DestroyerPushesInside(s: State, x: Choice)
    requires EventEnabled(s, x) && x.who == DestroyerThread
    ensures !s.destroyer.FinalIn? ==> x.event.None?
    ensures x.event.None? ==> x.pushed == [] && NextLower(s, x) == s.lower
  {
    hide M.Apply, M.Enabled, Confirms;
  }

  lemma DrainKeepsFlows(s: State, x: Choice)
    requires Flows(s) && EventEnabled(s, x) && x.who == DestroyerThread && s.destroyer.Drain?
    requires s.destroyer.index <= |s.saved|
    ensures Flows(DestroyerStep(s, x))
  {
    hide Confirms, EventEnabled, NextLower;
    DestroyerPushesInside(s, x);
    var i := s.destroyer.index;
    assert s.saved + [] == s.saved;
    if i < |s.saved| {
      RunFlows(s.ran, s.saved[i..], s.lower.calls);
      assert s.saved[i..][1..] == s.saved[i + 1..];
    }
  }

  lemma DestroyerKeepsFlows(s: State, x: Choice)
    requires Flows(s) && Phased(s) && Enabled(s, x) && x.who == DestroyerThread
    ensures Flows(DestroyerStep(s, x))
  {
    hide Confirms, EventEnabled, NextLower;
    LowerAfterStep(s, x);
    DestroyerPushesInside(s, x);
    if s.destroyer.Drain? {
      DrainKeepsFlows(s, x);
    } else if s.destroyer.FinalIn? {
      PushedFlows(s.ran, s.batch + s.saved, s.lower.calls, x.pushed);
      Associate(s.batch, s.saved, x.pushed);
    } else {
      assert s.saved + [] == s.saved && s.saved[0..] == s.saved && [] + s.saved == s.saved;
    }
  }

  // ----- Every reachable state -----

  ghost predicate Inv(s: State) {
    Locked(s) && Phased(s) && Flows(s) && M.Conserved(s.lower)
  }

  lemma StepKeepsConserved(s: State, x: Choice)
    requires M.Conserved(s.lower) && Enabled(s, x)
    ensures M.Conserved(Step(s, x).lower)
  {
    hide M.Conserved, M.Apply, M.Enabled, Confirms, HoldsLock;
    if x.event.Some? {
      M.EventKeepsConserved(s.lower, x.event.value);
    }
  }

  lemma StepKeepsInv(s: State, x: Choice)
    requires Inv(s) && Enabled(s, x)
    ensures Inv(Step(s, x))
  {
    hide Locked, Phased, Flows, M.Conserved, EventEnabled, SenderStep, WorkerStep, DestroyerStep;
    StepKeepsLocked(s, x);
    StepKeepsPhased(s, x);
    StepKeepsConserved(s, x);
    match x.who
    case SenderThread(t) => SenderKeepsFlows(s, t, x);
    case WorkerThread => WorkerKeepsFlows(s, x);
    case DestroyerThread => DestroyerKeepsFlows(s, x);
  }

  lemma InitialIsSafe(s: State)
    requires Initial(s)
    ensures Inv(s)
  {
    assert s.ran + Confirms(Pending(s)) == [];
    assert M.Conserved(M.INITIAL);
  }

  lemma {:induction false} RunKeepsInv(s: State, choices: seq<Choice>, t: State)
    requires IsRun(s, choices, t)
    ensures Inv(s) ==> Inv(t)
    decreases |choices|
  {
    hide Inv, Step, Ready, EventEnabled;
    if choices != [] && Inv(s) {
      StepKeepsInv(s, choices[0]);
      RunKeepsInv(Step(s, choices[0]), choices[1..], t);
    }
  }

  lemma ReachableIsSafe(initial: State, choices: seq<Choice>, s: State)
    requires Initial(initial) && IsRun(initial, choices, s)
    ensures Inv(s)
  {
    hide Inv, Initial;
    InitialIsSafe(initial);
    RunKeepsInv(initial, choices, s);
  }

  // ----- Exactly once, in order -----

  // At any moment the confirmations run are the first ones the low-level client issued: none is
  // run twice, skipped or overtaken.
  lemma RunInOrder(initial: State, choices: seq<Choice>, s: State)
    requires Initial(initial) && IsRun(initial, choices, s)
    ensures s.ran <= s.lower.calls
  {
    hide Locked, Phased, M.Conserved;
    ReachableIsSafe(initial, choices, s);
  }

  // When destruction has returned, every message accepted with a callback has had it run exactly
  // once, and the callbacks ran in the order of the low-level confirmations.
  lemma DestroyHandsOverAll(initial: State, choices: seq<Choice>, s: State, id: nat)
    requires Initial(initial) && IsRun(initial, choices, s)
    requires s.destroyer == Done && id < |s.lower.accepted|
    ensures s.ran == s.lower.calls
    ensures CountCalls(s.ran, id) == if s.lower.accepted[id].callback.Some? then 1 else 0
  {
    hide Locked, M.Conserved, CountCalls;
    ReachableIsSafe(initial, choices, s);
    assert Confirms(Pending(s)) == [];
    assert s.ran + [] == s.ran;
    M.ConservedMeansOnce(s.lower, id);
  }

  // Only the holder of the lock moves the list or has callbacks pushed on it.
  lemma ListIsGuarded(initial: State, choices: seq<Choice>, s: State, x: Choice)
    requires Initial(initial) && IsRun(initial, choices, s) && Enabled(s, x)
    ensures Step(s, x).saved != s.saved || Step(s, x).lower != s.lower ==> s.owner == Some(x.who)
  {
    hide Phased, Flows, M.Conserved, M.Apply, M.Enabled;
    ReachableIsSafe(initial, choices, s);
    LowerAfterStep(s, x);
    assert s.saved + [] == s.saved;
    if Step(s, x).saved != s.saved || Step(s, x).lower != s.lower {
      assert HoldsLock(s, x.who);
    }
  }

  // ----- Destruction can always be finished -----

  // A destruction that waits for the worker has told it to stop.
  ghost predicate Stopping(s: State) {
    s.destroyer == DestroyJoin ==> s.worker == NotStarted || s.worker == Exited || s.stopThread
  }

  lemma StepKeepsStopping(s: State, x: Choice)
    requires Stopping(s) && Phased(s) && Enabled(s, x)
    ensures Stopping(Step(s, x))
  {
    hide Confirms, EventEnabled, NextLower, NextOwner, WantsLock;
    match x.who
    case SenderThread(t) => assert s.senders[t] != Idle ==> s.destroyer == Absent;
    case WorkerThread =>
    case DestroyerThread =>
  }

  lemma {:induction false} RunKeepsStopping(s: State, choices: seq<Choice>, t: State)
    requires Inv(s) && Stopping(s) && IsRun(s, choices, t)
    ensures Stopping(t)
    decreases |choices|
  {
    hide Inv, Step, Ready, EventEnabled, Stopping;
    if choices != [] {
      PhasedIn(s);
      StepKeepsStopping(s, choices[0]);
      StepKeepsInv(s, choices[0]);
      RunKeepsStopping(Step(s, choices[0]), choices[1..], t);
    }
  }

  lemma PhasedIn(s: State)
    requires Inv(s)
    ensures Locked(s) && Phased(s)
  {
  }

  function AsItems(calls: seq<Call>): (items: seq<Item>)
    ensures Confirms(items) == calls
  {
    if calls == [] then []
    else
      var items := AsItems(calls[..|calls| - 1]) + [Confirm(calls[|calls| - 1])];
      assert items[..|items| - 1] == AsItems(calls[..|calls| - 1]);
      items
  }

  // How far a destruction is from its end: first by its position, then by what it waits for there.
  function Phase(pc: DestroyerPc): nat {
    match pc
    case Absent => 9
    case DestroyLock => 8
    case DestroyIn => 7
    case DestroyJoin => 6
    case FinalLock => 5
    case FinalIn => 4
    case FinalUnlock => 3
    case Drain(_) => 2
    case Done => 0
  }

  // Steps of the worker until it lets go of the lock.
  function ToRelease(s: State): nat {
    match s.worker
    case WorkTest => 3
    case WorkIn => 2
    case WorkCopied => 2
    case WorkUnlock(_) => 1
    case DispatchIn => 1
    case _ => 0
  }

  // Steps of a worker told to stop until it exits.
  function ToExit(s: State): nat {
    match s.worker
    case NotStarted => 0
    case Exited => 0
    case WorkTest => 1
    case WorkLock => 2
    case WorkUnlock(moved) => if moved then 6 + |s.batch| else 3
    case WorkIn => 4
    case Dispatch => 3 + |s.batch|
    case DispatchIn => 4 + |s.batch|
    case DispatchLock => 5 + |s.batch|
    case WorkCopied => 7 + |s.batch|
  }

  function Remaining(s: State): nat {
    match s.destroyer
    case DestroyLock => ToRelease(s)
    case DestroyJoin => ToExit(s)
    case FinalIn => |s.lower.inFlight|
    case Drain(i) => if i <= |s.saved| then |s.saved| - i else 0
    case _ => 0
  }

  ghost predicate Nearer(s: State, t: State) {
    Phase(t.destroyer) < Phase(s.destroyer) || (t.destroyer == s.destroyer && Remaining(t) < Remaining(s))
      || (t.destroyer.Drain? && s.destroyer.Drain? && Remaining(t) < Remaining(s))
  }

  // A step in which nothing happens below and nothing is pushed.
  function Quiet(who: Who): Choice {
    Choice(who, None, [], false)
  }

  lemma QuietIsAllowed(s: State, who: Who)
    ensures EventEnabled(s, Quiet(who)) && NextLower(s, Quiet(who)) == s.lower
  {
  }

  lemma OwnerIsNotSender(s: State)
    requires Locked(s) && Phased(s) && s.destroyer != Absent
    ensures s.owner.Some? ==> !s.owner.value.SenderThread?
  {
    if s.owner.Some? {
      assert HoldsLock(s, s.owner.value);
    }
  }

  // The worker brings the destruction that waits for it nearer to its end.
  lemma WorkerMoves(s: State)
    requires Locked(s) && Phased(s) && Stopping(s)
    requires (s.destroyer == DestroyLock && s.owner.Some?)
          || (s.destroyer == DestroyJoin && s.worker != NotStarted && s.worker != Exited)
    ensures Enabled(s, Quiet(WorkerThread)) && Nearer(s, Step(s, Quiet(WorkerThread)))
  {
    hide Confirms, EventEnabled, NextLower;
    QuietIsAllowed(s, WorkerThread);
    OwnerIsNotSender(s);
    assert s.owner == Some(WorkerThread) <==> HoldsLock(s, WorkerThread);
    assert s.owner == Some(DestroyerThread) <==> HoldsLock(s, DestroyerThread);
  }

  // Where the destruction waits for nothing it moves on by itself.
  lemma DestroyerMoves(s: State)
    requires Locked(s) && Phased(s) && s.destroyer != Absent && s.destroyer != Done && s.destroyer != FinalIn
    requires s.destroyer == DestroyLock ==> s.owner == None
    requires s.destroyer == DestroyJoin ==> s.worker == NotStarted || s.worker == Exited
    ensures Enabled(s, Quiet(DestroyerThread)) && Nearer(s, Step(s, Quiet(DestroyerThread)))
  {
    hide Confirms, EventEnabled, NextLower;
    QuietIsAllowed(s, DestroyerThread);
    OwnerIsNotSender(s);
    assert s.saved + [] == s.saved;
    assert s.owner == Some(WorkerThread) <==> HoldsLock(s, WorkerThread);
    assert s.owner == Some(DestroyerThread) <==> HoldsLock(s, DestroyerThread);
  }

  // The transport gives back one message it holds, or holds none and the list is drained.
  function Settling(s: State, m: M.Message): Choice {
    if s.lower.inFlight == multiset{} then
      Choice(DestroyerThread, Some(M.Drain), AsItems(CallsFor(s.lower.waiting, M.BecauseDestroy)), false)
    else
      Choice(DestroyerThread, Some(M.TransportCompletes([m], M.NotDelivered)),
             AsItems(CallsFor([m], M.NotDelivered)), false)
  }

  lemma SettlingIsAllowed(s: State, m: M.Message)
    requires s.destroyer == FinalIn && (s.lower.inFlight != multiset{} ==> m in s.lower.inFlight)
    ensures EventEnabled(s, Settling(s, m))
    ensures s.lower.inFlight != multiset{} ==> |NextLower(s, Settling(s, m)).inFlight| < |s.lower.inFlight|
  {
    hide Confirms, CallsFor;
    assert multiset([m]) == multiset{m};
  }

  lemma TransportMoves(s: State) returns (x: Choice)
    requires Phased(s) && s.destroyer == FinalIn
    ensures Enabled(s, x) && Nearer(s, Step(s, x))
  {
    hide Confirms, EventEnabled, NextLower;
    var m: M.Message := Entry(0, None, 0, M.Deadline(0, 0));
    if s.lower.inFlight != multiset{} {
      m :| m in s.lower.inFlight;
    }
    x := Settling(s, m);
    SettlingIsAllowed(s, m);
  }

  // While a destruction is under way, some step brings it nearer to its end.
  lemma SomeStepIsNearer(s: State) returns (x: Choice)
    requires Inv(s) && Stopping(s) && s.destroyer != Absent && s.destroyer != Done
    ensures Enabled(s, x) && Nearer(s, Step(s, x))
  {
    hide Flows, M.Conserved, Locked, Phased, Stopping, Step, Enabled, Nearer;
    if s.destroyer == FinalIn {
      x := TransportMoves(s);
    } else if (s.destroyer == DestroyLock && s.owner.Some?)
           || (s.destroyer == DestroyJoin && s.worker != NotStarted && s.worker != Exited) {
      x := Quiet(WorkerThread);
      WorkerMoves(s);
    } else {
      x := Quiet(DestroyerThread);
      DestroyerMoves(s);
    }
  }

  lemma {:induction false} FinishFrom(s: State) returns (more: seq<Choice>, t: State)
    requires Inv(s) && Stopping(s) && s.destroyer != Absent
    ensures IsRun(s, more, t) && t.destroyer == Done
    decreases Phase(s.destroyer), Remaining(s)
  {
    hide Inv, Stopping, Step, Ready, EventEnabled, Remaining;
    if s.destroyer == Done {
      more, t := [], s;
    } else {
      var x := SomeStepIsNearer(s);
      PhasedIn(s);
      StepKeepsStopping(s, x);
      StepKeepsInv(s, x);
      var rest;
      rest, t := FinishFrom(Step(s, x));
      more := [x] + rest;
      assert more[1..] == rest;
    }
  }

  // From every reachable state in which a destruction is under way it can be brought to its end,
  // whatever the other threads were doing; no lock and no join stands in the way for good.
  lemma DestructionCanFinish(initial: State, choices: seq<Choice>, s: State) returns (more: seq<Choice>, t: State)
    requires Initial(initial) && IsRun(initial, choices, s) && s.destroyer != Absent
    ensures IsRun(s, more, t) && t.destroyer == Done
  {
    hide Inv;
    InitialIsSafe(initial);
    RunKeepsInv(initial, choices, s);
    RunKeepsStopping(initial, choices, s);
    more, t := FinishFrom(s);
  }

  // ----- The loops of one thread -----

  // dispatch_user_callbacks, as far as confirmations go.
  method DispatchUserCallbacks(callBacks: seq<Item>) returns (ran: seq<Call>)
    ensures ran == Confirms(callBacks)
  {
    ran := [];
    for index := 0 to |callBacks|
      invariant ran == Confirms(callBacks[..index])
    {
      assert callBacks[..index + 1][..index] == callBacks[..index];
      if callBacks[index].Confirm? {
        ran := ran + [callBacks[index].call];
      }
    }
    assert callBacks[..|callBacks|] == callBacks;
  }
}
