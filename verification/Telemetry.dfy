/** The telemetry messages of a low-level client: accepted by SendEventAsync, waiting, taken and
    perhaps put back by the transport, and finished once by completion, timeout or destruction. */
module Telemetry {
  import opened Options
  import opened Sequences
  import opened Ledger

  const TICK_RANGE: nat := 0x1_0000_0000_0000_0000
  type Tick = n: nat | n < 0x1_0000_0000_0000_0000

  datatype Confirmation = Delivered | BecauseDestroy | MessageTimeout | NotDelivered

  // When an entry of the waiting list times out: the tick it was stamped with and the timeout.
  datatype Deadline = Deadline(timesOutAfter: Tick, timeoutValue: Tick)

  type Message = Entry<Deadline>

  // `inFlight` is what the transport holds. `accepted` and `finished` are history; `calls` is the
  // trace of user callbacks; `now` is the newest tick read.
  datatype State = State(
    waiting: seq<Message>,
    inFlight: multiset<Message>,
    currentTimeout: Tick,
    accepted: seq<Message>,
    finished: seq<Finish<Deadline, Confirmation>>,
    calls: seq<UserCall<Confirmation>>,
    now: Tick)

  const INITIAL: State := State([], multiset{}, 0, [], [], [], 0)

  // ----- Timeouts -----

  // The age is an unsigned 64-bit subtraction.
  function Age(now: Tick, stamp: Tick): Tick {
    (now - stamp) % TICK_RANGE
  }

  predicate Expired(m: Message, now: Tick) {
    m.payload.timesOutAfter != 0 && Age(now, m.payload.timesOutAfter) > m.payload.timeoutValue
  }

  // The messages whose expiry is as asked, in their order.
  function Select(messages: seq<Message>, now: Tick, expired: bool): seq<Message> {
    if messages == [] then []
    else
      var last := messages[|messages| - 1];
      Select(messages[..|messages| - 1], now, expired) + (if Expired(last, now) == expired then [last] else [])
  }

  function Unexpired(waiting: seq<Message>, now: Tick): seq<Message> {
    Select(waiting, now, false)
  }

  function TimedOut(waiting: seq<Message>, now: Tick): seq<Message> {
    Select(waiting, now, true)
  }

  lemma NothingSelected(messages: seq<Message>, now: Tick)
    ensures Unexpired(messages[..0], now) == [] && TimedOut(messages[..0], now) == []
    ensures [] + messages[0..] == messages
  {
  }

  // What one more message adds to either selection.
  lemma SelectNext(messages: seq<Message>, done: nat, now: Tick)
    requires done < |messages|
    ensures var m := messages[done];
            && Unexpired(messages[..done + 1], now)
               == Unexpired(messages[..done], now) + (if Expired(m, now) then [] else [m])
            && TimedOut(messages[..done + 1], now)
               == TimedOut(messages[..done], now) + (if Expired(m, now) then [m] else [])
  {
    assert messages[..done + 1][..done] == messages[..done];
  }

  // ----- Finishing -----

  function FinishAll(s: State, messages: seq<Message>, result: Confirmation): State {
    s.(finished := s.finished + Finishes(messages, result), calls := s.calls + CallsFor(messages, result))
  }

  // ----- Operations -----

  // The stamp and timeout attached to a message accepted now: nothing when timeouts are off.
  function Attach(s: State, callback: Option<nat>, context: nat, tick: Tick): Message {
    if s.currentTimeout == 0 then Entry(|s.accepted|, callback, context, Deadline(0, 0))
    else Entry(|s.accepted|, callback, context, Deadline(tick, s.currentTimeout))
  }

  function Accept(s: State, callback: Option<nat>, context: nat, tick: Tick): State {
    var m := Attach(s, callback, context, tick);
    s.(waiting := s.waiting + [m], accepted := s.accepted + [m], now := if s.currentTimeout == 0 then s.now else tick)
  }

  function DoTimeouts(s: State, tick: Tick): State {
    FinishAll(s.(waiting := Unexpired(s.waiting, tick), now := tick), TimedOut(s.waiting, tick), MessageTimeout)
  }

  function Take(s: State, i: nat): State
    requires i < |s.waiting|
  {
    s.(waiting := s.waiting[..i] + s.waiting[i + 1..], inFlight := s.inFlight + multiset{s.waiting[i]})
  }

  function PutBack(s: State, m: Message, i: nat): State
    requires i <= |s.waiting|
  {
    s.(waiting := s.waiting[..i] + [m] + s.waiting[i..], inFlight := s.inFlight - multiset{m})
  }

  function SendComplete(s: State, completed: seq<Message>, result: Confirmation): State {
    FinishAll(s.(inFlight := s.inFlight - multiset(completed)), completed, result)
  }

  function DrainWaiting(s: State): State {
    FinishAll(s.(waiting := []), s.waiting, BecauseDestroy)
  }

  // ----- Runs -----

  // The transport may take any waiting message, put it back anywhere, and complete what it holds.
  datatype Event =
    | Send(callback: Option<nat>, context: nat, tick: Tick)
    | SetMessageTimeout(value: Tick)
    | Timeouts(tick: Tick)
    | TransportTakes(index: nat)
    | TransportPutsBack(message: Message, index: nat)
    | TransportCompletes(completed: seq<Message>, result: Confirmation)
    | Drain

  // Ticks do not go back, and the transport handles only what it holds.
  predicate Enabled(s: State, e: Event) {
    match e
    case Send(_, _, tick) => s.now <= tick
    case SetMessageTimeout(_) => true
    case Timeouts(tick) => s.now <= tick
    case TransportTakes(index) => index < |s.waiting|
    case TransportPutsBack(message, index) => message in s.inFlight && index <= |s.waiting|
    case TransportCompletes(completed, _) => multiset(completed) <= s.inFlight
    case Drain => true
  }

  function Apply(s: State, e: Event): State
    requires Enabled(s, e)
  {
    match e
    case Send(callback, context, tick) => Accept(s, callback, context, tick)
    case SetMessageTimeout(value) => s.(currentTimeout := value)
    case Timeouts(tick) => DoTimeouts(s, tick)
    case TransportTakes(index) => Take(s, index)
    case TransportPutsBack(message, index) => PutBack(s, message, index)
    case TransportCompletes(completed, result) => SendComplete(s, completed, result)
    case Drain => DrainWaiting(s)
  }

  // One step of a run.
  ghost predicate StepsTo(s: State, e: Event, t: State) {
    Enabled(s, e) && t == Apply(s, e)
  }

  ghost predicate IsRun(s: State, events: seq<Event>, t: State)
    decreases |events|
  {
    if events == [] then s == t
    else Enabled(s, events[0]) && IsRun(Apply(s, events[0]), events[1..], t)
  }

  // ----- Conservation -----

  // Every accepted message is in exactly one place, exactly once.
  ghost predicate Partitioned(s: State) {
    multiset(s.accepted) == multiset(s.waiting) + s.inFlight + multiset(EntriesOf(s.finished))
  }

  // Ids are acceptance numbers, and no stamp is ahead of the clock.
  ghost predicate Numbered(s: State) {
    forall i :: 0 <= i < |s.accepted| ==> s.accepted[i].id == i && s.accepted[i].payload.timesOutAfter <= s.now
  }

  // The callbacks run are those of the finished messages, in finishing order.
  ghost predicate Conserved(s: State) {
    Partitioned(s) && Numbered(s) && s.calls == CallsOf(s.finished)
  }

  lemma {:induction false} TimeoutsSplit(waiting: seq<Message>, now: Tick)
    ensures multiset(waiting) == multiset(Unexpired(waiting, now)) + multiset(TimedOut(waiting, now))
  {
    if waiting != [] {
      var earlier, last := waiting[..|waiting| - 1], waiting[|waiting| - 1];
      TimeoutsSplit(earlier, now);
      assert waiting == earlier + [last];
      if Expired(last, now) {
        assert Select(waiting, now, false) == Select(earlier, now, false) + [];
      } else {
        assert Select(waiting, now, true) == Select(earlier, now, true) + [];
      }
    }
  }

  lemma FinishKeepsConserved(s: State, messages: seq<Message>, result: Confirmation)
    requires multiset(s.accepted)
          == multiset(s.waiting) + s.inFlight + multiset(messages) + multiset(EntriesOf(s.finished))
    requires Numbered(s) && s.calls == CallsOf(s.finished)
    ensures Conserved(FinishAll(s, messages, result))
  {
    EntriesOfExtended(s.finished, messages, result);
    CallsOfExtended(s.finished, messages, result);
  }

  lemma SendKeepsConserved(s: State, callback: Option<nat>, context: nat, tick: Tick)
    requires Conserved(s) && s.now <= tick
    ensures Conserved(Accept(s, callback, context, tick))
  {
  }

  lemma TimeoutsKeepConserved(s: State, tick: Tick)
    requires Conserved(s) && s.now <= tick
    ensures Conserved(DoTimeouts(s, tick))
  {
    TimeoutsSplit(s.waiting, tick);
    FinishKeepsConserved(s.(waiting := Unexpired(s.waiting, tick), now := tick),
                         TimedOut(s.waiting, tick), MessageTimeout);
  }

  lemma TakeKeepsConserved(s: State, i: nat)
    requires Conserved(s) && i < |s.waiting|
    ensures Conserved(Take(s, i))
  {
    TakenOut(s.waiting, i);
  }

  lemma PutBackKeepsConserved(s: State, m: Message, i: nat)
    requires Conserved(s) && m in s.inFlight && i <= |s.waiting|
    ensures Conserved(PutBack(s, m, i))
  {
    var waiting := PutBack(s, m, i).waiting;
    TakenOut(waiting, i);
    assert waiting[..i] + waiting[i + 1..] == s.waiting;
  }

  lemma CompleteKeepsConserved(s: State, completed: seq<Message>, result: Confirmation)
    requires Conserved(s) && multiset(completed) <= s.inFlight
    ensures Conserved(SendComplete(s, completed, result))
  {
    assert s.inFlight == (s.inFlight - multiset(completed)) + multiset(completed);
    FinishKeepsConserved(s.(inFlight := s.inFlight - multiset(completed)), completed, result);
  }

  lemma DrainKeepsConserved(s: State)
    requires Conserved(s)
    ensures Conserved(DrainWaiting(s))
  {
    FinishKeepsConserved(s.(waiting := []), s.waiting, BecauseDestroy);
  }

  lemma EventKeepsConserved(s: State, e: Event)
    requires Conserved(s) && Enabled(s, e)
    ensures Conserved(Apply(s, e))
  {
    match e
    case Send(callback, context, tick) => SendKeepsConserved(s, callback, context, tick);
    case SetMessageTimeout(_) =>
    case Timeouts(tick) => TimeoutsKeepConserved(s, tick);
    case TransportTakes(i) => TakeKeepsConserved(s, i);
    case TransportPutsBack(m, i) => PutBackKeepsConserved(s, m, i);
    case TransportCompletes(completed, result) => CompleteKeepsConserved(s, completed, result);
    case Drain => DrainKeepsConserved(s);
  }

  // Conservation holds in every reachable state.
  lemma {:induction false} RunKeepsConserved(s: State, events: seq<Event>, t: State)
    requires Conserved(s) && IsRun(s, events, t)
    ensures Conserved(t)
    decreases |events|
  {
    if events != [] {
      EventKeepsConserved(s, events[0]);
      RunKeepsConserved(Apply(s, events[0]), events[1..], t);
    }
  }

  lemma ReachableIsConserved(events: seq<Event>, s: State)
    requires IsRun(INITIAL, events, s)
    ensures Conserved(s)
  {
    RunKeepsConserved(INITIAL, events, s);
  }

  // ----- Exactly once -----

  lemma AcceptedOnce(s: State, id: nat)
    requires Conserved(s) && id < |s.accepted|
    ensures multiset(s.waiting)[s.accepted[id]] + s.inFlight[s.accepted[id]]
          + multiset(EntriesOf(s.finished))[s.accepted[id]] == 1
  {
    DistinctOnce(s.accepted, id);
  }

  lemma FinishedWereAccepted(s: State, m: Message)
    requires Conserved(s) && m in EntriesOf(s.finished)
    ensures m.id < |s.accepted| && s.accepted[m.id] == m
  {
    assert m in multiset(s.accepted);
    assert m in s.accepted;
  }

  // Each accepted message is in one of the three places, once; its callback, if it has one, has run
  // once if it is finished and not at all otherwise.
  lemma ConservedMeansOnce(s: State, id: nat)
    requires Conserved(s) && id < |s.accepted|
    ensures multiset(s.waiting)[s.accepted[id]] + s.inFlight[s.accepted[id]]
          + multiset(EntriesOf(s.finished))[s.accepted[id]] == 1
    ensures CountCalls(s.calls, id)
         == if s.accepted[id].callback.Some? && s.accepted[id] in EntriesOf(s.finished) then 1 else 0
  {
    AcceptedOnce(s, id);
    var m := s.accepted[id];
    forall n | n in EntriesOf(s.finished) && n.id == m.id ensures n == m {
      FinishedWereAccepted(s, n);
    }
    CountCallsOf(s.finished, m);
    assert m in EntriesOf(s.finished) <==> multiset(EntriesOf(s.finished))[m] > 0;
  }

  // That holds in every reachable state.
  lemma ExactlyOnce(events: seq<Event>, s: State, id: nat)
    requires IsRun(INITIAL, events, s) && id < |s.accepted|
    ensures multiset(s.waiting)[s.accepted[id]] + s.inFlight[s.accepted[id]]
          + multiset(EntriesOf(s.finished))[s.accepted[id]] == 1
    ensures CountCalls(s.calls, id)
         == if s.accepted[id].callback.Some? && s.accepted[id] in EntriesOf(s.finished) then 1 else 0
  {
    ReachableIsConserved(events, s);
    ConservedMeansOnce(s, id);
  }

  // Once the transport holds nothing, draining finishes every accepted message, so each callback
  // has run exactly once.
  lemma DrainTells(s: State)
    requires Conserved(s) && s.inFlight == multiset{}
    ensures var t := DrainWaiting(s);
            Conserved(t) &&
            forall id :: 0 <= id < |s.accepted| ==>
              && s.accepted[id] in EntriesOf(t.finished)
              && CountCalls(t.calls, id) == if s.accepted[id].callback.Some? then 1 else 0
  {
    DrainKeepsConserved(s);
    forall id | 0 <= id < |s.accepted|
      ensures s.accepted[id] in EntriesOf(DrainWaiting(s).finished)
      ensures CountCalls(DrainWaiting(s).calls, id) == if s.accepted[id].callback.Some? then 1 else 0
    {
      ConservedMeansOnce(DrainWaiting(s), id);
    }
  }

  lemma DestroyFinishesAll(events: seq<Event>, s: State, id: nat)
    requires IsRun(INITIAL, events, s) && s.inFlight == multiset{} && id < |s.accepted|
    ensures var t := DrainWaiting(s);
            && t.waiting == [] && t.accepted == s.accepted
            && t.accepted[id] in EntriesOf(t.finished)
            && CountCalls(t.calls, id) == if t.accepted[id].callback.Some? then 1 else 0
  {
    ReachableIsConserved(events, s);
    DrainTells(s);
  }

  // ----- What the user gave and what the user is told -----

  // The sends of a run, in order.
  function Sends(events: seq<Event>): (sends: seq<Event>)
    ensures forall i :: 0 <= i < |sends| ==> sends[i].Send?
  {
    if events == [] then []
    else Sends(events[..|events| - 1]) + (if events[|events| - 1].Send? then [events[|events| - 1]] else [])
  }

  // The messages carry what the sends gave.
  ghost predicate AsSent(messages: seq<Message>, sends: seq<Event>)
    requires forall i :: 0 <= i < |sends| ==> sends[i].Send?
  {
    && |messages| == |sends|
    && forall i :: 0 <= i < |messages| ==>
         messages[i].callback == sends[i].callback && messages[i].context == sends[i].context
  }

  lemma {:induction false} SendsAppend(first: seq<Event>, second: seq<Event>)
    ensures Sends(first + second) == Sends(first) + Sends(second)
  {
    if second == [] {
      assert first + second == first && Sends(first) + [] == Sends(first);
    } else {
      var earlier, last := second[..|second| - 1], second[|second| - 1];
      AppendLast(first, earlier, last);
      assert second == earlier + [last];
      SendsAppend(first, earlier);
      Associate(Sends(first), Sends(earlier), if last.Send? then [last] else []);
    }
  }

  lemma OneSend(e: Event)
    ensures Sends([e]) == if e.Send? then [e] else []
  {
    assert [e][..0] == [];
  }

  // An accepted message is new, at the end of the waiting list, and carries the sender's own callback
  // and context.
  lemma AcceptAppends(s: State, callback: Option<nat>, context: nat, tick: Tick)
    ensures var t := Accept(s, callback, context, tick);
            && |t.accepted| == |s.accepted| + 1 && s.accepted <= t.accepted
            && t.waiting == s.waiting + [t.accepted[|s.accepted|]]
            && t.accepted[|s.accepted|].id == |s.accepted|
            && t.accepted[|s.accepted|].callback == callback && t.accepted[|s.accepted|].context == context
            && t.calls == s.calls && t.finished == s.finished && t.inFlight == s.inFlight
  {
  }

  lemma {:induction false} AcceptedFrom(s: State, events: seq<Event>, t: State, sent: seq<Event>)
    requires IsRun(s, events, t)
    requires (forall i :: 0 <= i < |sent| ==> sent[i].Send?) && AsSent(s.accepted, sent)
    ensures AsSent(t.accepted, sent + Sends(events))
    decreases |events|
  {
    if events == [] {
      assert sent + [] == sent;
    } else {
      var e := events[0];
      var more := sent + Sends([e]);
      OneSend(e);
      assert events == [e] + events[1..];
      SendsAppend([e], events[1..]);
      Associate(sent, Sends([e]), Sends(events[1..]));
      AcceptedFrom(Apply(s, e), events[1..], t, more);
    }
  }

  // Over every run the i-th message accepted carries the callback and context of the i-th send.
  lemma AcceptedAreTheSends(events: seq<Event>, s: State)
    requires IsRun(INITIAL, events, s)
    ensures AsSent(s.accepted, Sends(events))
  {
    AcceptedFrom(INITIAL, events, s, []);
    assert [] + Sends(events) == Sends(events);
  }

  // So the callback given with the i-th send has run at most once at any moment, and once when its
  // message is finished; every call made is of that kind, with the context given in the same send.
  lemma SendersAreTold(events: seq<Event>, s: State, i: nat)
    requires IsRun(INITIAL, events, s) && i < |Sends(events)|
    ensures i < |s.accepted|
    ensures CountCalls(s.calls, i)
         == if Sends(events)[i].callback.Some? && s.accepted[i] in EntriesOf(s.finished) then 1 else 0
    ensures forall c <- s.calls :: c.id == i ==>
              Sends(events)[i].callback == Some(c.callback) && c.context == Sends(events)[i].context
  {
    AcceptedAreTheSends(events, s);
    ExactlyOnce(events, s, i);
    ReachableIsConserved(events, s);
    forall c | c in s.calls && c.id == i
      ensures Sends(events)[i].callback == Some(c.callback) && c.context == Sends(events)[i].context
    {
      CallIsOfItsMessage(s, c);
    }
  }

  lemma CallIsOfItsMessage(s: State, c: UserCall<Confirmation>)
    requires Conserved(s) && c in s.calls
    ensures c.id < |s.accepted|
    ensures s.accepted[c.id].callback == Some(c.callback) && s.accepted[c.id].context == c.context
  {
    var k :| 0 <= k < |s.calls| && s.calls[k] == c;
    CallsAreFaithful(s.finished, k);
    var f :| f in s.finished && Tells(c, f.entry, f.result);
    var j :| 0 <= j < |s.finished| && s.finished[j] == f;
    assert EntriesOf(s.finished)[j] == f.entry;
    FinishedWereAccepted(s, f.entry);
  }

  // And by the end of destruction the callback of every send has run exactly once.
  lemma SendersAreToldByDestruction(events: seq<Event>, s: State, i: nat)
    requires IsRun(INITIAL, events, s) && s.inFlight == multiset{} && i < |Sends(events)|
    ensures CountCalls(DrainWaiting(s).calls, i) == if Sends(events)[i].callback.Some? then 1 else 0
  {
    AcceptedAreTheSends(events, s);
    DestroyFinishesAll(events, s, i);
  }

  // Why the messages an event finishes are finished.
  function Reason(e: Event): Option<Confirmation> {
    match e
    case Timeouts(_) => Some(MessageTimeout)
    case TransportCompletes(_, result) => Some(result)
    case Drain => Some(BecauseDestroy)
    case _ => None
  }

  // The messages an event finishes, in order.
  function Finished(s: State, e: Event): seq<Message> {
    match e
    case Timeouts(tick) => TimedOut(s.waiting, tick)
    case TransportCompletes(completed, _) => completed
    case Drain => s.waiting
    case _ => []
  }

  lemma EventFinishes(s: State, e: Event)
    requires Enabled(s, e)
    ensures Reason(e).None? ==>
              Finished(s, e) == [] && Apply(s, e).finished == s.finished && Apply(s, e).calls == s.calls
    ensures Reason(e).Some? ==>
              && Apply(s, e).finished == s.finished + Finishes(Finished(s, e), Reason(e).value)
              && Apply(s, e).calls == s.calls + CallsFor(Finished(s, e), Reason(e).value)
  {
    hide Select, Finishes, CallsFor;
  }

  // An event finishes its messages in order, for its own reason, and tells exactly those.
  lemma EventTellsWhy(s: State, e: Event)
    requires Enabled(s, e)
    ensures s.finished <= Apply(s, e).finished && |Apply(s, e).finished| == |s.finished| + |Finished(s, e)|
    ensures forall i :: 0 <= i < |Finished(s, e)| ==>
              && Reason(e).Some?
              && Apply(s, e).finished[|s.finished| + i] == Finish(Finished(s, e)[i], Reason(e).value)
    ensures s.calls <= Apply(s, e).calls && |Apply(s, e).calls| == |s.calls| + WithCallback(Finished(s, e))
    ensures forall i :: 0 <= i < |Finished(s, e)| && Finished(s, e)[i].callback.Some? ==>
              var k := |s.calls| + WithCallback(Finished(s, e)[..i]);
              && k < |Apply(s, e).calls|
              && Tells(Apply(s, e).calls[k], Finished(s, e)[i], Reason(e).value)
  {
    hide Apply, Finished, Reason, Tells;
    EventFinishes(s, e);
    if Reason(e).Some? {
      CallsForAre(Finished(s, e), Reason(e).value);
    }
  }

  // Without put-backs the waiting messages stay in the order in which they were accepted.
  ghost predicate InAcceptanceOrder(s: State) {
    Ascending(s.waiting, |s.accepted|)
  }

  ghost predicate Ascending(messages: seq<Message>, bound: nat) {
    && (forall i, j :: 0 <= i < j < |messages| ==> messages[i].id < messages[j].id)
    && (forall i :: 0 <= i < |messages| ==> messages[i].id < bound)
  }

  lemma SelectKeepsOrder(messages: seq<Message>, now: Tick, expired: bool, bound: nat)
    requires Ascending(messages, bound)
    ensures Ascending(Select(messages, now, expired), bound)
  {
    hide Select, Expired;
    var indices := SelectIsStable(messages, now, expired);
  }

  lemma {:induction false} WaitingInOrder(s: State, events: seq<Event>, t: State)
    requires InAcceptanceOrder(s) && IsRun(s, events, t)
    requires forall e <- events :: !e.TransportPutsBack?
    ensures InAcceptanceOrder(t)
    decreases |events|
  {
    if events != [] {
      EventKeepsOrder(s, events[0]);
      WaitingInOrder(Apply(s, events[0]), events[1..], t);
    }
  }

  lemma EventKeepsOrder(s: State, e: Event)
    requires InAcceptanceOrder(s) && Enabled(s, e) && !e.TransportPutsBack?
    ensures InAcceptanceOrder(Apply(s, e))
  {
    match e {
      case Timeouts(tick) =>
        SelectKeepsOrder(s.waiting, tick, false, |s.accepted|);
      case _ =>
    }
  }

  // ----- What a timeout pass does -----

  // `selected` reads off exactly the positions whose expiry is as asked, in order.
  ghost predicate ReadsOff(messages: seq<Message>, now: Tick, expired: bool, selected: seq<Message>, indices: seq<nat>) {
    && |indices| == |selected|
    && Increasing(indices)
    && (forall i :: 0 <= i < |indices| ==> indices[i] < |messages| && selected[i] == messages[indices[i]])
    && (forall j :: 0 <= j < |messages| ==> (j in indices <==> Expired(messages[j], now) == expired))
  }

  lemma ReadsOffOneMore(messages: seq<Message>, now: Tick, expired: bool, selected: seq<Message>, indices: seq<nat>,
                        m: Message) returns (more: seq<nat>)
    requires ReadsOff(messages, now, expired, selected, indices)
    ensures ReadsOff(messages + [m], now, expired,
                     selected + (if Expired(m, now) == expired then [m] else []), more)
  {
    var longer := messages + [m];
    assert forall j :: 0 <= j < |messages| ==> longer[j] == messages[j];
    if Expired(m, now) == expired {
      more := indices + [|messages|];
      forall j | 0 <= j < |longer| ensures j in more <==> Expired(longer[j], now) == expired {
        assert j in more <==> j in indices || j == |messages|;
      }
    } else {
      more := indices;
      assert selected + [] == selected;
    }
  }

  // `Select` is a stable filter.
  lemma {:induction false} SelectIsStable(messages: seq<Message>, now: Tick, expired: bool) returns (indices: seq<nat>)
    ensures ReadsOff(messages, now, expired, Select(messages, now, expired), indices)
  {
    if messages == [] {
      indices := [];
    } else {
      var earlier, last := messages[..|messages| - 1], messages[|messages| - 1];
      indices := SelectIsStable(earlier, now, expired);
      indices := ReadsOffOneMore(earlier, now, expired, Select(earlier, now, expired), indices, last);
      assert messages == earlier + [last];
    }
  }

  // A timeout pass keeps exactly the messages that have not expired, in their order, and finishes
  // exactly those that have, in theirs.
  lemma PassFinishesTheExpired(s: State, tick: Tick) returns (kept: seq<nat>, told: seq<nat>)
    ensures ReadsOff(s.waiting, tick, false, DoTimeouts(s, tick).waiting, kept)
    ensures ReadsOff(s.waiting, tick, true, Finished(s, Timeouts(tick)), told)
  {
    kept := SelectIsStable(s.waiting, tick, false);
    told := SelectIsStable(s.waiting, tick, true);
  }

  // For a stamp the clock has reached, the 64-bit age is the elapsed time.
  lemma ExpiredMeans(m: Message, now: Tick)
    requires m.payload.timesOutAfter <= now
    ensures Expired(m, now) <==> m.payload.timesOutAfter != 0 && now > m.payload.timesOutAfter + m.payload.timeoutValue
  {
  }

  // A message accepted at tick t under a timeout is timed out once more than the timeout has
  // passed, unless t is zero: then it never times out.
  lemma TimesOutUnlessStampedZero(s: State, callback: Option<nat>, context: nat, t: Tick, now: Tick)
    requires s.currentTimeout > 0 && t <= now
    ensures Expired(Attach(s, callback, context, t), now) <==> t != 0 && now - t > s.currentTimeout
  {
  }

  // So one accepted at tick zero never does, whatever its timeout.
  lemma NeverTimesOutAtTickZero(s: State, callback: Option<nat>, context: nat, now: Tick)
    ensures !Expired(Attach(s, callback, context, 0), now)
  {
  }

  // What a message was accepted with, its stamp and timeout included, is what it keeps.
  lemma {:induction false} AcceptedMessagesAreFixed(s: State, events: seq<Event>, t: State)
    requires IsRun(s, events, t)
    ensures s.accepted <= t.accepted
    decreases |events|
  {
    if events != [] {
      AcceptedMessagesAreFixed(Apply(s, events[0]), events[1..], t);
    }
  }

  // So whatever is still waiting is, field by field, the message that was accepted under its id.
  lemma WaitingAsAccepted(events: seq<Event>, s: State, i: nat)
    requires IsRun(INITIAL, events, s) && i < |s.waiting|
    ensures s.waiting[i].id < |s.accepted| && s.accepted[s.waiting[i].id] == s.waiting[i]
    ensures s.waiting[i].payload.timesOutAfter <= s.now
  {
    ReachableIsConserved(events, s);
    assert s.waiting[i] in multiset(s.accepted);
    assert s.waiting[i] in s.accepted;
  }
}
