/** Reported twin states of a low-level client: queued, handed to the transport, awaiting an
    acknowledgement that carries only a 32-bit item id. */
module TwinReports {
  import opened Options
  import opened Sequences
  import opened Words
  import opened Ledger

  const ERROR_CODE_BECAUSE_DESTROY: int := 0

  // The answers of the transport's ProcessItem.
  datatype ProcessResult = ProcessOk | ProcessError | ProcessContinue | ProcessNotConnected

  // The payload of a report is its item id; the entry's own id is the unbounded issue number.
  type Report = Entry<uint32>

  // `issued` counts the item ids generated. `submitted`, `finished` and `dropped` are history.
  datatype State = State(
    msgQueue: seq<Report>,
    ackQueue: seq<Report>,
    dataMsgId: uint32,
    issued: nat,
    submitted: seq<Report>,
    finished: seq<Finish<uint32, int>>,
    dropped: seq<Report>,
    calls: seq<UserCall<int>>)

  const INITIAL: State := State([], [], 1, 0, [], [], [], [])

  // ----- Item ids -----

  function NextItemId(dataMsgId: uint32): uint32 {
    if (dataMsgId + 1) % UINT32_RANGE >= UINT32_MAX then 1 else (dataMsgId + 1) % UINT32_RANGE
  }

  const ID_PERIOD: nat := 0xFFFF_FFFE

  // The n-th item id, in closed form.
  function ItemId(n: nat): uint32 {
    n % ID_PERIOD + 1
  }

  lemma NextIdFollowsClosedForm(n: nat)
    ensures NextItemId(ItemId(n)) == ItemId(n + 1)
    ensures 1 <= ItemId(n) <= UINT32_MAX - 1
  {
    if n % ID_PERIOD == ID_PERIOD - 1 {
      assert (n + 1) % ID_PERIOD == 0;
    } else {
      assert (n + 1) % ID_PERIOD == n % ID_PERIOD + 1;
    }
  }

  // Two issue numbers share an item id exactly when they are a multiple of the period apart.
  lemma IdsCollideWhen(m: nat, n: nat)
    requires m <= n
    ensures ItemId(m) == ItemId(n) <==> (n - m) % ID_PERIOD == 0
  {
  }

  // ----- Operations -----

  // An id is consumed whether or not the report can then be allocated and queued.
  function Send(s: State, callback: Option<nat>, context: nat, queued: bool): State {
    var id := NextItemId(s.dataMsgId);
    var counted := s.(dataMsgId := id, issued := s.issued + 1);
    if !queued then counted
    else
      var report := Entry(s.issued + 1, callback, context, id);
      counted.(msgQueue := s.msgQueue + [report], submitted := s.submitted + [report])
  }

  // The queue part of DoWork: the transport is offered the reports from the head of the message
  // queue until it answers "continue" or "not connected".
  function Process(s: State, answers: seq<ProcessResult>): (t: State)
    requires |answers| == |s.msgQueue|
    ensures t.submitted == s.submitted && t.issued == s.issued && t.dataMsgId == s.dataMsgId
    decreases |answers|
  {
    if answers == [] || answers[0] in {ProcessContinue, ProcessNotConnected} then s
    else
      var report, rest := s.msgQueue[0], s.msgQueue[1..];
      if answers[0] == ProcessOk then
        Process(s.(msgQueue := rest, ackQueue := s.ackQueue + [report]), answers[1..])
      else
        Process(s.(msgQueue := rest, dropped := s.dropped + [report]), answers[1..])
  }

  function FirstWithId(reports: seq<Report>, itemId: uint32): (i: nat)
    ensures i <= |reports|
    ensures i < |reports| ==> reports[i].payload == itemId
    ensures forall j :: 0 <= j < i ==> reports[j].payload != itemId
  {
    if reports == [] || reports[0].payload == itemId then 0 else 1 + FirstWithId(reports[1..], itemId)
  }

  function FinishAll(s: State, reports: seq<Report>, status: int): State {
    s.(finished := s.finished + Finishes(reports, status), calls := s.calls + CallsFor(reports, status))
  }

  // The report at index i of the acknowledgement queue is told `status` and taken out.
  function FinishAck(s: State, i: nat, status: int): State
    requires i < |s.ackQueue|
  {
    s.(ackQueue := s.ackQueue[..i] + s.ackQueue[i + 1..],
       finished := s.finished + [Finish(s.ackQueue[i], status)],
       calls := s.calls + CallFor(s.ackQueue[i], status))
  }

  // The acknowledgement of an item id removes the first report that carries it.
  function Complete(s: State, itemId: uint32, status: int): State {
    var i := FirstWithId(s.ackQueue, itemId);
    if i == |s.ackQueue| then s else FinishAck(s, i, status)
  }

  // Destruction tells the reports not yet sent first, then those awaiting an acknowledgement.
  function Destroy(s: State): State {
    FinishAll(FinishAll(s.(msgQueue := [], ackQueue := []), s.msgQueue, ERROR_CODE_BECAUSE_DESTROY),
              s.ackQueue, ERROR_CODE_BECAUSE_DESTROY)
  }

  // ----- Runs -----

  datatype Event =
    | SendReport(callback: Option<nat>, context: nat, queued: bool)
    | DoWork(answers: seq<ProcessResult>)
    | Acknowledge(itemId: uint32, status: int)
    | DestroyAll

  predicate Enabled(s: State, e: Event) {
    e.DoWork? ==> |e.answers| == |s.msgQueue|
  }

  function Apply(s: State, e: Event): State
    requires Enabled(s, e)
  {
    match e
    case SendReport(callback, context, queued) => Send(s, callback, context, queued)
    case DoWork(answers) => Process(s, answers)
    case Acknowledge(itemId, status) => Complete(s, itemId, status)
    case DestroyAll => Destroy(s)
  }

  // One step of a run.
  ghost predicate StepsTo(s: State, e: Event, t: State) {
    Enabled(s, e) && t == Apply(s, e)
  }

  ghost predicate IsRun(s: State, events: seq<Event>, t: State)
    decreases |events|
  {
    if events == [] then s == t
    else Enabled(s, events[0]) && IsRun(Apply(s, events[0]), events[1..], t)
  }

  function Live(s: State): seq<Report> {
    s.ackQueue + s.msgQueue
  }

  ghost predicate InOrder(reports: seq<Report>) {
    forall i, j :: 0 <= i < j < |reports| ==> reports[i].id < reports[j].id
  }

  // No issue number lies ahead of the counter.
  ghost predicate Issued(reports: seq<Report>, issued: nat) {
    forall i :: 0 <= i < |reports| ==> 1 <= reports[i].id <= issued
  }

  // The generator and the reports it numbered follow the closed form.
  ghost predicate IdsMatch(s: State) {
    && s.dataMsgId == ItemId(s.issued)
    && forall report <- s.submitted :: report.payload == ItemId(report.id)
  }

  // Every submitted report is in exactly one place, once.
  ghost predicate Partitioned(s: State) {
    multiset(s.submitted)
      == multiset(s.ackQueue) + multiset(s.msgQueue) + multiset(EntriesOf(s.finished)) + multiset(s.dropped)
  }

  ghost predicate Ordered(s: State) {
    && InOrder(Live(s)) && Issued(Live(s), s.issued)
    && InOrder(s.submitted) && Issued(s.submitted, s.issued)
  }

  ghost predicate Conserved(s: State) {
    Ordered(s) && Partitioned(s) && s.calls == CallsOf(s.finished)
  }

  lemma NewestAppended(reports: seq<Report>, issued: nat, report: Report)
    requires InOrder(reports) && Issued(reports, issued)
    requires report.id == issued + 1
    ensures InOrder(reports + [report]) && Issued(reports + [report], issued + 1)
  {
  }

  lemma SendKeepsConserved(s: State, callback: Option<nat>, context: nat, queued: bool)
    requires Conserved(s)
    ensures Conserved(Send(s, callback, context, queued))
  {
    if queued {
      var report := Entry(s.issued + 1, callback, context, NextItemId(s.dataMsgId));
      NewestAppended(Live(s), s.issued, report);
      NewestAppended(s.submitted, s.issued, report);
      assert Live(s) + [report] == s.ackQueue + (s.msgQueue + [report]);
    }
  }

  lemma HeadMoved(s: State)
    requires Conserved(s) && s.msgQueue != []
    ensures Conserved(s.(msgQueue := s.msgQueue[1..], ackQueue := s.ackQueue + [s.msgQueue[0]]))
  {
    var t := s.(msgQueue := s.msgQueue[1..], ackQueue := s.ackQueue + [s.msgQueue[0]]);
    assert s.msgQueue == [s.msgQueue[0]] + s.msgQueue[1..];
    assert Live(t) == Live(s);
  }

  lemma HeadDropped(s: State)
    requires Conserved(s) && s.msgQueue != []
    ensures Conserved(s.(msgQueue := s.msgQueue[1..], dropped := s.dropped + [s.msgQueue[0]]))
  {
    var t := s.(msgQueue := s.msgQueue[1..], dropped := s.dropped + [s.msgQueue[0]]);
    assert Partitioned(t) by {
      assert s.msgQueue == [s.msgQueue[0]] + s.msgQueue[1..];
    }
    assert Ordered(t) by {
      LiveWithout(s, |s.ackQueue|);
      assert Live(t) == Live(s)[..|s.ackQueue|] + Live(s)[|s.ackQueue| + 1..];
    }
  }

  lemma LiveWithout(s: State, i: nat)
    requires Ordered(s) && i < |Live(s)|
    ensures InOrder(Live(s)[..i] + Live(s)[i + 1..]) && Issued(Live(s)[..i] + Live(s)[i + 1..], s.issued)
  {
  }

  lemma {:induction false} ProcessKeepsConserved(s: State, answers: seq<ProcessResult>)
    requires Conserved(s) && |answers| == |s.msgQueue|
    ensures Conserved(Process(s, answers))
    decreases |answers|
  {
    if answers == [] || answers[0] in {ProcessContinue, ProcessNotConnected} {
    } else if answers[0] == ProcessOk {
      HeadMoved(s);
      ProcessKeepsConserved(s.(msgQueue := s.msgQueue[1..], ackQueue := s.ackQueue + [s.msgQueue[0]]), answers[1..]);
    } else {
      HeadDropped(s);
      ProcessKeepsConserved(s.(msgQueue := s.msgQueue[1..], dropped := s.dropped + [s.msgQueue[0]]), answers[1..]);
    }
  }

  lemma AckRemoved(s: State, i: nat)
    requires Ordered(s) && i < |s.ackQueue|
    ensures Ordered(s.(ackQueue := s.ackQueue[..i] + s.ackQueue[i + 1..]))
  {
    LiveWithout(s, i);
    var rest := s.ackQueue[..i] + s.ackQueue[i + 1..];
    assert rest + s.msgQueue == Live(s)[..i] + Live(s)[i + 1..];
  }

  lemma FinishOne(finished: seq<Finish<uint32, int>>, report: Report, status: int)
    ensures EntriesOf(finished + [Finish(report, status)]) == EntriesOf(finished) + [report]
    ensures CallsOf(finished + [Finish(report, status)]) == CallsOf(finished) + CallFor(report, status)
  {
    assert Finishes<uint32, int>([], status) == [] && Finishes([report], status) == [Finish(report, status)];
    assert CallsFor<uint32, int>([], status) == [] && CallsFor([report], status) == CallFor(report, status);
    EntriesOfExtended(finished, [report], status);
    CallsOfExtended(finished, [report], status);
  }

  lemma FinishAckKeepsConserved(s: State, i: nat, status: int)
    requires Conserved(s) && i < |s.ackQueue|
    ensures Conserved(FinishAck(s, i, status))
  {
    TakenOut(s.ackQueue, i);
    AckRemoved(s, i);
    FinishOne(s.finished, s.ackQueue[i], status);
  }

  lemma CompleteKeepsConserved(s: State, itemId: uint32, status: int)
    requires Conserved(s)
    ensures Conserved(Complete(s, itemId, status))
  {
    var i := FirstWithId(s.ackQueue, itemId);
    if i < |s.ackQueue| {
      FinishAckKeepsConserved(s, i, status);
    }
  }

  lemma DestroyKeepsConserved(s: State)
    requires Conserved(s)
    ensures Conserved(Destroy(s))
  {
    hide Finishes, CallsFor, EntriesOf, CallsOf;
    var status := ERROR_CODE_BECAUSE_DESTROY;
    EntriesOfExtended(s.finished, s.msgQueue, status);
    CallsOfExtended(s.finished, s.msgQueue, status);
    var finished := s.finished + Finishes(s.msgQueue, status);
    EntriesOfExtended(finished, s.ackQueue, status);
    CallsOfExtended(finished, s.ackQueue, status);
  }

  lemma EventKeepsConserved(s: State, e: Event)
    requires Conserved(s) && Enabled(s, e)
    ensures Conserved(Apply(s, e))
  {
    hide Conserved;
    match e
    case SendReport(callback, context, queued) => SendKeepsConserved(s, callback, context, queued);
    case DoWork(answers) => ProcessKeepsConserved(s, answers);
    case Acknowledge(itemId, status) => CompleteKeepsConserved(s, itemId, status);
    case DestroyAll => DestroyKeepsConserved(s);
  }

  lemma {:induction false} RunKeepsConserved(s: State, events: seq<Event>, t: State)
    requires Conserved(s) && IsRun(s, events, t)
    ensures Conserved(t)
    decreases |events|
  {
    hide Conserved, Apply;
    if events != [] {
      EventKeepsConserved(s, events[0]);
      RunKeepsConserved(Apply(s, events[0]), events[1..], t);
    }
  }

  lemma ReachableIsConserved(events: seq<Event>, s: State)
    requires IsRun(INITIAL, events, s)
    ensures Conserved(s)
  {
    assert Conserved(INITIAL);
    hide Conserved;
    RunKeepsConserved(INITIAL, events, s);
  }

  lemma SendKeepsIds(s: State, callback: Option<nat>, context: nat, queued: bool)
    requires IdsMatch(s)
    ensures IdsMatch(Send(s, callback, context, queued))
  {
    NextIdFollowsClosedForm(s.issued);
  }

  // The other operations submit nothing and take no id.
  lemma OthersKeepIds(s: State, t: State)
    requires IdsMatch(s) && t.submitted == s.submitted && t.issued == s.issued && t.dataMsgId == s.dataMsgId
    ensures IdsMatch(t)
  {
  }

  lemma {:induction false} RunKeepsIds(s: State, events: seq<Event>, t: State)
    requires IdsMatch(s) && IsRun(s, events, t)
    ensures IdsMatch(t)
    decreases |events|
  {
    if events != [] {
      match events[0] {
        case SendReport(callback, context, queued) => SendKeepsIds(s, callback, context, queued);
        case _ => OthersKeepIds(s, Apply(s, events[0]));
      }
      RunKeepsIds(Apply(s, events[0]), events[1..], t);
    }
  }

  // ----- Order and exactly once -----

  // In every reachable state the live reports are submitted ones, in submission order, without
  // repeats: issue numbers grow along the queues and each finds its report in the submissions.
  lemma LiveInSubmissionOrder(events: seq<Event>, s: State)
    requires IsRun(INITIAL, events, s)
    ensures InOrder(Live(s)) && InOrder(s.submitted)
    ensures forall report <- Live(s) :: report in s.submitted
  {
    ReachableIsConserved(events, s);
    forall report | report in Live(s) ensures report in s.submitted {
      LiveWasSubmitted(s, report);
    }
  }

  lemma FinishedWereSubmitted(s: State, report: Report, k: nat)
    requires Conserved(s) && k < |s.submitted|
    requires report in EntriesOf(s.finished) && report.id == s.submitted[k].id
    ensures report == s.submitted[k]
  {
    assert report in multiset(s.submitted);
    var j :| 0 <= j < |s.submitted| && s.submitted[j] == report;
  }

  // A submitted report's callback has run once if the report was acknowledged or destroyed, and
  // not at all while it is live or when the transport refused it.
  lemma ConservedMeansOnce(s: State, k: nat)
    requires Conserved(s) && k < |s.submitted|
    ensures multiset(Live(s))[s.submitted[k]] + multiset(EntriesOf(s.finished))[s.submitted[k]]
          + multiset(s.dropped)[s.submitted[k]] == 1
    ensures CountCalls(s.calls, s.submitted[k].id)
         == if s.submitted[k].callback.Some? && s.submitted[k] in EntriesOf(s.finished) then 1 else 0
  {
    var report := s.submitted[k];
    DistinctOnce(s.submitted, k);
    assert multiset(Live(s)) == multiset(s.ackQueue) + multiset(s.msgQueue);
    forall other | other in EntriesOf(s.finished) && other.id == report.id ensures other == report {
      FinishedWereSubmitted(s, other, k);
    }
    CountCallsOf(s.finished, report);
  }

  // That holds in every reachable state.
  lemma ReportCallbackOnce(events: seq<Event>, s: State, k: nat)
    requires IsRun(INITIAL, events, s) && k < |s.submitted|
    ensures multiset(Live(s))[s.submitted[k]] + multiset(EntriesOf(s.finished))[s.submitted[k]]
          + multiset(s.dropped)[s.submitted[k]] == 1
    ensures CountCalls(s.calls, s.submitted[k].id)
         == if s.submitted[k].callback.Some? && s.submitted[k] in EntriesOf(s.finished) then 1 else 0
  {
    ReachableIsConserved(events, s);
    ConservedMeansOnce(s, k);
  }

  // With nothing live, every report has been told exactly once, except those the transport refused.
  lemma NothingLiveMeansTold(s: State, k: nat)
    requires Conserved(s) && Live(s) == [] && k < |s.submitted|
    ensures CountCalls(s.calls, s.submitted[k].id)
         == if s.submitted[k].callback.Some? && s.submitted[k] !in s.dropped then 1 else 0
  {
    ConservedMeansOnce(s, k);
    assert s.submitted[k] in s.dropped <==> multiset(s.dropped)[s.submitted[k]] > 0;
    assert s.submitted[k] in EntriesOf(s.finished) <==> multiset(EntriesOf(s.finished))[s.submitted[k]] > 0;
  }

  lemma DestructionTells(s: State)
    requires Conserved(s)
    ensures var t := Destroy(s);
            Conserved(t) &&
            forall k :: 0 <= k < |s.submitted| ==>
              CountCalls(t.calls, s.submitted[k].id)
              == if s.submitted[k].callback.Some? && s.submitted[k] !in s.dropped then 1 else 0
  {
    DestroyKeepsConserved(s);
    forall k | 0 <= k < |s.submitted|
      ensures CountCalls(Destroy(s).calls, s.submitted[k].id)
           == if s.submitted[k].callback.Some? && s.submitted[k] !in s.dropped then 1 else 0
    {
      NothingLiveMeansTold(Destroy(s), k);
    }
  }

  lemma DestroyTellsAll(events: seq<Event>, s: State, k: nat)
    requires IsRun(INITIAL, events, s) && k < |s.submitted|
    ensures var t := Destroy(s);
            && Live(t) == [] && t.submitted == s.submitted && t.dropped == s.dropped
            && CountCalls(t.calls, t.submitted[k].id)
            == if t.submitted[k].callback.Some? && t.submitted[k] !in t.dropped then 1 else 0
  {
    hide Conserved, CountCalls;
    ReachableIsConserved(events, s);
    DestructionTells(s);
  }

  // ----- What happens to a report -----

  // How many reports the transport is offered before it stops taking them.
  function Taken(answers: seq<ProcessResult>): (k: nat)
    ensures k <= |answers|
    ensures forall i :: 0 <= i < k ==> answers[i].ProcessOk? || answers[i].ProcessError?
    ensures k < |answers| ==> answers[k].ProcessContinue? || answers[k].ProcessNotConnected?
  {
    if answers == [] || answers[0] in {ProcessContinue, ProcessNotConnected} then 0
    else
      var later := Taken(answers[1..]);
      assert forall i :: 1 <= i < |answers| ==> answers[i] == answers[1..][i - 1];
      1 + later
  }

  // The reports that were given the answer asked for, in order.
  function Answered(reports: seq<Report>, answers: seq<ProcessResult>, wanted: ProcessResult): seq<Report>
    requires |reports| == |answers|
  {
    if reports == [] then []
    else (if answers[0] == wanted then [reports[0]] else []) + Answered(reports[1..], answers[1..], wanted)
  }

  function HowMany(answers: seq<ProcessResult>, wanted: ProcessResult): nat {
    if answers == [] then 0 else (if answers[0] == wanted then 1 else 0) + HowMany(answers[1..], wanted)
  }

  // One report for each such answer: the report that got it, after those that got it earlier.
  lemma {:induction false} AnsweredAre(reports: seq<Report>, answers: seq<ProcessResult>, wanted: ProcessResult)
    requires |reports| == |answers|
    ensures |Answered(reports, answers, wanted)| == HowMany(answers, wanted)
    ensures forall i :: 0 <= i < |answers| && answers[i] == wanted ==>
              var k := HowMany(answers[..i], wanted);
              k < |Answered(reports, answers, wanted)| && Answered(reports, answers, wanted)[k] == reports[i]
  {
    if reports != [] {
      AnsweredAre(reports[1..], answers[1..], wanted);
      forall i | 0 <= i < |answers| && answers[i] == wanted
        ensures var k := HowMany(answers[..i], wanted);
                k < |Answered(reports, answers, wanted)| && Answered(reports, answers, wanted)[k] == reports[i]
      {
        if i > 0 {
          assert answers[..i][1..] == answers[1..][..i - 1] && answers[1..][i - 1] == wanted;
        }
      }
    }
  }

  // DoWork takes the reports up to the first answer that stops it off the message queue. Those
  // answered "ok" wait for their acknowledgement, those answered "error" are dropped, untold.
  lemma {:induction false} ProcessSorts(s: State, answers: seq<ProcessResult>)
    requires |answers| == |s.msgQueue|
    ensures var k := Taken(answers);
            var t := Process(s, answers);
            && t.msgQueue == s.msgQueue[k..]
            && t.ackQueue == s.ackQueue + Answered(s.msgQueue[..k], answers[..k], ProcessOk)
            && t.dropped == s.dropped + Answered(s.msgQueue[..k], answers[..k], ProcessError)
            && t.finished == s.finished && t.calls == s.calls
    decreases |answers|
  {
    hide Answered;
    var k := Taken(answers);
    if k == 0 {
      NoneAnswered(ProcessOk);
      NoneAnswered(ProcessError);
      assert s.ackQueue + [] == s.ackQueue && s.dropped + [] == s.dropped;
    } else {
      var head := [s.msgQueue[0]];
      var next := if answers[0] == ProcessOk
                  then s.(msgQueue := s.msgQueue[1..], ackQueue := s.ackQueue + head)
                  else s.(msgQueue := s.msgQueue[1..], dropped := s.dropped + head);
      ProcessSorts(next, answers[1..]);
      FirstAnswered(s.msgQueue, answers, k, ProcessOk);
      FirstAnswered(s.msgQueue, answers, k, ProcessError);
      var oks := Answered(next.msgQueue[..k - 1], answers[1..][..k - 1], ProcessOk);
      var errors := Answered(next.msgQueue[..k - 1], answers[1..][..k - 1], ProcessError);
      Associate(s.ackQueue, if answers[0] == ProcessOk then head else [], oks);
      Associate(s.dropped, if answers[0] == ProcessError then head else [], errors);
    }
  }

  lemma NoneAnswered(wanted: ProcessResult)
    ensures Answered([], [], wanted) == []
  {
  }

  lemma FirstAnswered(reports: seq<Report>, answers: seq<ProcessResult>, k: nat, wanted: ProcessResult)
    requires |reports| == |answers| && 0 < k <= |answers|
    ensures Answered(reports[..k], answers[..k], wanted)
         == (if answers[0] == wanted then [reports[0]] else [])
            + Answered(reports[1..][..k - 1], answers[1..][..k - 1], wanted)
  {
    assert reports[..k][1..] == reports[1..][..k - 1] && answers[..k][1..] == answers[1..][..k - 1];
  }

  // The reports answered "error" over a run, in order.
  ghost function Refused(s: State, events: seq<Event>, t: State): seq<Report>
    requires IsRun(s, events, t)
    decreases |events|
  {
    if events == [] then []
    else
      var e := events[0];
      (if e.DoWork? then Answered(s.msgQueue[..Taken(e.answers)], e.answers[..Taken(e.answers)], ProcessError) else [])
      + Refused(Apply(s, e), events[1..], t)
  }

  lemma {:induction false} DroppedAreTheRefused(s: State, events: seq<Event>, t: State)
    requires IsRun(s, events, t)
    ensures t.dropped == s.dropped + Refused(s, events, t)
    decreases |events|
  {
    hide Answered, Process;
    if events == [] {
      assert s.dropped + [] == s.dropped;
    } else {
      var e, next := events[0], Apply(s, events[0]);
      DroppedAreTheRefused(next, events[1..], t);
      match e {
        case DoWork(answers) => ProcessSorts(s, answers);
        case _ => assert next.dropped == s.dropped;
      }
    }
  }

  // By the end of destruction every submitted report has been told once, unless the transport
  // answered "error" when it was offered: then never.
  lemma ToldUnlessRefused(events: seq<Event>, s: State, k: nat)
    requires IsRun(INITIAL, events, s) && k < |s.submitted|
    ensures var report := s.submitted[k];
            CountCalls(Destroy(s).calls, report.id)
            == if report.callback.Some? && report !in Refused(INITIAL, events, s) then 1 else 0
  {
    hide CountCalls, Refused;
    DroppedAreTheRefused(INITIAL, events, s);
    assert s.dropped == Refused(INITIAL, events, s);
    DestroyTellsAll(events, s, k);
  }

  // Destruction tells "because destroy", 0: the reports still queued first, then those that waited
  // for an acknowledgement.
  lemma DestroyTellsInOrder(s: State)
    ensures var t := Destroy(s);
            && t.calls == s.calls + CallsFor(s.msgQueue, 0) + CallsFor(s.ackQueue, 0)
            && t.finished == s.finished + Finishes(s.msgQueue, 0) + Finishes(s.ackQueue, 0)
            && t.msgQueue == [] && t.ackQueue == []
  {
    hide CallsFor, Finishes;
  }

  // ----- What the user gave -----

  // The calls of a run that queued a report, and how many calls there were.
  function Queued(events: seq<Event>): (sends: seq<Event>)
    ensures forall i :: 0 <= i < |sends| ==> sends[i].SendReport?
  {
    if events == [] then []
    else
      var last := events[|events| - 1];
      Queued(events[..|events| - 1]) + (if last.SendReport? && last.queued then [last] else [])
  }

  function SendCalls(events: seq<Event>): nat {
    if events == [] then 0 else (if events[0].SendReport? then 1 else 0) + SendCalls(events[1..])
  }

  // The reports carry what the calls gave.
  ghost predicate AsSent(reports: seq<Report>, sends: seq<Event>)
    requires forall i :: 0 <= i < |sends| ==> sends[i].SendReport?
  {
    && |reports| == |sends|
    && forall i :: 0 <= i < |reports| ==>
         reports[i].callback == sends[i].callback && reports[i].context == sends[i].context
  }

  lemma {:induction false} QueuedAppend(first: seq<Event>, second: seq<Event>)
    ensures Queued(first + second) == Queued(first) + Queued(second)
  {
    if second == [] {
      assert first + second == first && Queued(first) + [] == Queued(first);
    } else {
      var earlier, last := second[..|second| - 1], second[|second| - 1];
      AppendLast(first, earlier, last);
      assert second == earlier + [last];
      QueuedAppend(first, earlier);
      Associate(Queued(first), Queued(earlier), if last.SendReport? && last.queued then [last] else []);
    }
  }

  lemma OneQueued(e: Event)
    ensures Queued([e]) == if e.SendReport? && e.queued then [e] else []
  {
    assert [e][..0] == [];
  }

  // A queued report is new, at the end of the message queue, and carries the caller's own callback and
  // context. The id generated for it is used up even when it is not queued.
  lemma SendAppends(s: State, callback: Option<nat>, context: nat, queued: bool)
    ensures var t := Send(s, callback, context, queued);
            && t.issued == s.issued + 1 && t.dataMsgId == NextItemId(s.dataMsgId)
            && t.ackQueue == s.ackQueue && t.finished == s.finished && t.dropped == s.dropped && t.calls == s.calls
            && (!queued ==> t.msgQueue == s.msgQueue && t.submitted == s.submitted)
            && (queued ==>
                  && |t.submitted| == |s.submitted| + 1 && s.submitted <= t.submitted
                  && t.msgQueue == s.msgQueue + [t.submitted[|s.submitted|]]
                  && t.submitted[|s.submitted|] == Entry(t.issued, callback, context, t.dataMsgId))
  {
  }

  lemma SubmittedStep(s: State, e: Event, sent: seq<Event>)
    requires Enabled(s, e)
    requires (forall i :: 0 <= i < |sent| ==> sent[i].SendReport?) && AsSent(s.submitted, sent)
    ensures AsSent(Apply(s, e).submitted, sent + Queued([e]))
    ensures Apply(s, e).issued == s.issued + (if e.SendReport? then 1 else 0)
  {
    hide Process, Queued;
    OneQueued(e);
    match e {
      case SendReport(callback, context, queued) => SendAppends(s, callback, context, queued);
      case _ => assert sent + [] == sent;
    }
  }

  lemma {:induction false} SubmittedFrom(s: State, events: seq<Event>, t: State, sent: seq<Event>)
    requires IsRun(s, events, t)
    requires (forall i :: 0 <= i < |sent| ==> sent[i].SendReport?) && AsSent(s.submitted, sent)
    ensures AsSent(t.submitted, sent + Queued(events)) && t.issued == s.issued + SendCalls(events)
    decreases |events|
  {
    hide Apply, AsSent;
    if events == [] {
      assert sent + [] == sent;
    } else {
      var e := events[0];
      SubmittedStep(s, e, sent);
      assert events == [e] + events[1..];
      QueuedAppend([e], events[1..]);
      Associate(sent, Queued([e]), Queued(events[1..]));
      SubmittedFrom(Apply(s, e), events[1..], t, sent + Queued([e]));
    }
  }

  // Over every run the k-th report submitted carries the callback and context of the k-th call that
  // queued one, and every call, queued or not, has used an id.
  lemma SubmittedAreTheSends(events: seq<Event>, s: State)
    requires IsRun(INITIAL, events, s)
    ensures AsSent(s.submitted, Queued(events)) && s.issued == SendCalls(events)
  {
    SubmittedFrom(INITIAL, events, s, []);
    assert [] + Queued(events) == Queued(events);
  }

  // ----- Ids identify -----

  // The live reports span fewer issue numbers than there are item ids.
  ghost predicate SpanFits(s: State) {
    Live(s) != [] ==> Live(s)[|Live(s)| - 1].id - Live(s)[0].id < ID_PERIOD
  }

  // Then no two of them share an item id.
  lemma LiveIdsDiffer(s: State, i: nat, j: nat)
    requires Conserved(s) && IdsMatch(s) && SpanFits(s) && i < j < |Live(s)|
    ensures Live(s)[i].payload != Live(s)[j].payload
  {
    var live := Live(s);
    assert live[0].id <= live[i].id < live[j].id <= live[|live| - 1].id;
    IdsCollideWhen(live[i].id, live[j].id);
    LiveWasSubmitted(s, live[i]);
    LiveWasSubmitted(s, live[j]);
  }

  lemma LiveWasSubmitted(s: State, report: Report)
    requires Partitioned(s) && report in Live(s)
    ensures report in s.submitted
  {
    assert report in multiset(s.submitted);
  }

  // No earlier report that waits for an acknowledgement was issued a multiple of the period before.
  ghost predicate FirstOfItsId(s: State, i: nat)
    requires i < |s.ackQueue|
  {
    forall j :: 0 <= j < i ==> !SameId(s.ackQueue[j].id, s.ackQueue[i].id)
  }

  predicate SameId(m: nat, n: nat) {
    (n - m) % ID_PERIOD == 0
  }

  lemma AcksShareIdWhen(s: State, j: nat, i: nat)
    requires Conserved(s) && IdsMatch(s) && j <= i < |s.ackQueue|
    ensures s.ackQueue[j].payload == s.ackQueue[i].payload <==> SameId(s.ackQueue[j].id, s.ackQueue[i].id)
    ensures j < i ==> s.ackQueue[j] != s.ackQueue[i]
  {
    hide ItemId;
    assert Live(s)[j] == s.ackQueue[j] && Live(s)[i] == s.ackQueue[i];
    LiveWasSubmitted(s, Live(s)[j]);
    LiveWasSubmitted(s, Live(s)[i]);
    IdsCollideWhen(s.ackQueue[j].id, s.ackQueue[i].id);
  }

  lemma FoundWhen(s: State, i: nat)
    requires Conserved(s) && IdsMatch(s) && i < |s.ackQueue|
    ensures FirstWithId(s.ackQueue, s.ackQueue[i].payload) == i <==> FirstOfItsId(s, i)
    ensures FirstWithId(s.ackQueue, s.ackQueue[i].payload) <= i
  {
    hide Conserved, IdsMatch, SameId;
    var k := FirstWithId(s.ackQueue, s.ackQueue[i].payload);
    AcksShareIdWhen(s, k, i);
    forall j | 0 <= j < i
      ensures s.ackQueue[j].payload == s.ackQueue[i].payload <==> SameId(s.ackQueue[j].id, s.ackQueue[i].id)
    {
      AcksShareIdWhen(s, j, i);
    }
  }

  // From s to t, the report at index i of the acknowledgement queue was told the status, with its own
  // callback and context, and left the queue; everything else stayed.
  ghost predicate Acknowledged(s: State, i: nat, status: int, t: State)
    requires i < |s.ackQueue|
  {
    var report := s.ackQueue[i];
    && t.finished == s.finished + [Finish(report, status)]
    && t.ackQueue == s.ackQueue[..i] + s.ackQueue[i + 1..]
    && t.msgQueue == s.msgQueue && t.submitted == s.submitted && t.dropped == s.dropped
    && t.issued == s.issued && t.dataMsgId == s.dataMsgId
    && (report.callback.None? ==> t.calls == s.calls)
    && (report.callback.Some? ==>
          t.calls == s.calls + [UserCall(report.id, report.callback.value, report.context, status)])
  }

  // An acknowledgement is that of the first report that carries the item id, or it changes nothing.
  lemma CompletesTheFirst(s: State, itemId: uint32, status: int)
    ensures var i := FirstWithId(s.ackQueue, itemId);
            && (i == |s.ackQueue| ==> Complete(s, itemId, status) == s)
            && (i < |s.ackQueue| ==> Acknowledged(s, i, status, Complete(s, itemId, status)))
  {
  }

  // The acknowledgement of a report's own item id finishes that report with the status given, and
  // leaves the others as they were, exactly when no earlier one that still waits has the same id.
  lemma AcknowledgesItsReport(events: seq<Event>, s: State, i: nat, status: int)
    requires IsRun(INITIAL, events, s) && i < |s.ackQueue|
    ensures Acknowledged(s, i, status, Complete(s, s.ackQueue[i].payload, status)) <==> FirstOfItsId(s, i)
  {
    hide Conserved, IdsMatch, SameId, FirstOfItsId;
    ReachableIsConserved(events, s);
    assert IdsMatch(INITIAL) by { InitialIdsMatch(); }
    RunKeepsIds(INITIAL, events, s);
    FoundWhen(s, i);
    var k := FirstWithId(s.ackQueue, s.ackQueue[i].payload);
    CompletesTheFirst(s, s.ackQueue[i].payload, status);
    if k < i {
      AcksShareIdWhen(s, k, i);
      assert (s.finished + [Finish(s.ackQueue[k], status)])[|s.finished|]
          != (s.finished + [Finish(s.ackQueue[i], status)])[|s.finished|];
    }
  }

  lemma InitialIdsMatch()
    ensures IdsMatch(INITIAL)
  {
  }

  // That is so while the live reports span fewer issue numbers than there are ids.
  lemma FirstWhileSpanFits(events: seq<Event>, s: State, i: nat)
    requires IsRun(INITIAL, events, s) && SpanFits(s) && i < |s.ackQueue|
    ensures FirstOfItsId(s, i)
  {
    hide ItemId, Conserved, IdsMatch;
    ReachableIsConserved(events, s);
    assert IdsMatch(INITIAL) by { InitialIdsMatch(); }
    RunKeepsIds(INITIAL, events, s);
    forall j | 0 <= j < i ensures !SameId(s.ackQueue[j].id, s.ackQueue[i].id) {
      AcksShareIdWhen(s, j, i);
      assert Live(s)[j] == s.ackQueue[j] && Live(s)[i] == s.ackQueue[i];
      LiveIdsDiffer(s, j, i);
    }
  }

  // Item ids stay in 1 .. 2^32 - 2 in every reachable state.
  lemma ItemIdsInRange(events: seq<Event>, s: State)
    requires IsRun(INITIAL, events, s)
    ensures 1 <= s.dataMsgId <= UINT32_MAX - 1
    ensures forall report <- s.submitted :: 1 <= report.payload <= UINT32_MAX - 1
  {
    RunKeepsIds(INITIAL, events, s);
  }
}
