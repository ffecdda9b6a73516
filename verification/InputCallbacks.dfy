/** The handlers a module registers for its named inputs, and the subscription they keep alive. */
module InputCallbacks {
  import opened Options

  // The name of an input; none names the default handler.
  type InputName = Option<string>

  datatype ClientResult = Ok | Error

  // What a caller asks for. A plain handler gets `context`, an extended one a copy of `contextEx`.
  datatype Registration =
    Registration(callback: Option<nat>, callbackEx: Option<nat>, context: nat, contextEx: Option<seq<bv8>>)
  {
    // A registration without any handler removes the one there is.
    predicate Removes() {
      callback.None? && callbackEx.None?
    }
  }

  datatype EventCallback =
    EventCallback(inputName: InputName, callback: Option<nat>, callbackEx: Option<nat>, context: nat,
                  contextEx: Option<seq<bv8>>)
  {
    predicate Callable() {
      callback.Some? || callbackEx.Some?
    }
  }

  // The handler a message is given to, and the context it gets.
  datatype Invocation = CallPlain(callback: nat, context: nat) | CallEx(callbackEx: nat, contextEx: Option<seq<bv8>>)

  // One call of SetInputMessageCallbackImpl and its answer.
  datatype Outcome = Outcome(name: InputName, registration: Registration, result: ClientResult)

  // `list` is none while no list is allocated. `subscribed` is the transport's side; `history` lists
  // the calls made.
  datatype State = State(list: Option<seq<EventCallback>>, subscribed: bool, history: seq<Outcome>)

  const INITIAL: State := State(None, false, [])

  // ----- The list -----

  function Items(list: Option<seq<EventCallback>>): seq<EventCallback> {
    if list.Some? then list.value else []
  }

  function Find(items: seq<EventCallback>, name: InputName): (i: nat)
    ensures i <= |items|
    ensures i < |items| ==> items[i].inputName == name
    ensures forall j :: 0 <= j < i ==> items[j].inputName != name
  {
    if items == [] || items[0].inputName == name then 0 else 1 + Find(items[1..], name)
  }

  function Lookup(items: seq<EventCallback>, name: InputName): Option<EventCallback> {
    var i := Find(items, name);
    if i < |items| then Some(items[i]) else None
  }

  // Overwriting an entry leaves its plain context alone when an extended context is given.
  function Overwritten(e: EventCallback, r: Registration): EventCallback {
    EventCallback(e.inputName, r.callback, r.callbackEx, if r.contextEx.Some? then e.context else r.context, r.contextEx)
  }

  function NewEntry(name: InputName): EventCallback {
    EventCallback(name, None, None, 0, None)
  }

  function Registered(items: seq<EventCallback>, name: InputName, r: Registration): seq<EventCallback> {
    var i := Find(items, name);
    if i < |items| then items[i := Overwritten(items[i], r)]
    else items + [Overwritten(NewEntry(name), r)]
  }

  function Removed(items: seq<EventCallback>, name: InputName): seq<EventCallback> {
    var i := Find(items, name);
    if i < |items| then items[..i] + items[i + 1..] else items
  }

  // ----- Operations -----

  // `subscribes` is the transport's answer, asked only when the list was empty before.
  function Set(s: State, name: InputName, r: Registration, subscribes: bool): State {
    var items := Items(s.list);
    if r.Removes() then
      if Find(items, name) == |items| then s.(history := s.history + [Outcome(name, r, Error)])
      else State(Some(Removed(items, name)), s.subscribed && Removed(items, name) != [],
                 s.history + [Outcome(name, r, Ok)])
    else if items == [] && !subscribes then State(None, s.subscribed, s.history + [Outcome(name, r, Error)])
    else State(Some(Registered(items, name, r)), s.subscribed || items == [], s.history + [Outcome(name, r, Ok)])
  }

  function Invoke(e: EventCallback): Invocation
    requires e.Callable()
  {
    if e.callbackEx.Some? then CallEx(e.callbackEx.value, e.contextEx) else CallPlain(e.callback.value, e.context)
  }

  ghost predicate AllCallable(items: seq<EventCallback>) {
    forall i :: 0 <= i < |items| ==> items[i].Callable()
  }

  // A message goes to the handler of its input, else to the default handler.
  function Dispatch(items: seq<EventCallback>, name: InputName): Option<Invocation>
    requires AllCallable(items)
  {
    var i := Find(items, name);
    var j := if i < |items| then i else Find(items, None);
    if j < |items| then Some(Invoke(items[j])) else None
  }

  // ----- The list as the program keeps it -----

  class CallbackList {
    var eventCallbacks: Option<seq<EventCallback>>
    ghost var subscribed: bool
    ghost var history: seq<Outcome>

    ghost function View(): State
      reads this
    {
      State(eventCallbacks, subscribed, history)
    }

    constructor ()
      ensures View() == INITIAL
    {
      eventCallbacks, subscribed, history := None, false, [];
    }

    method CreateEventHandlerCallback(name: InputName, r: Registration)
      modifies this`eventCallbacks
      ensures eventCallbacks == Some(Registered(Items(old(eventCallbacks)), name, r))
    {
      if eventCallbacks == None {
        eventCallbacks := Some([]);
      }
      var items := eventCallbacks.value;
      var i := Find(items, name);
      var addToList := i == |items|;
      var event := if addToList then NewEntry(name) else items[i];
      event := event.(callback := r.callback, callbackEx := r.callbackEx, contextEx := None);
      if r.contextEx == None {
        event := event.(context := r.context);
      } else {
        event := event.(contextEx := r.contextEx);
      }
      eventCallbacks := Some(if addToList then items + [event] else items[i := event]);
    }

    method RemoveEventUnsubscribeIfNeeded(name: InputName) returns (result: ClientResult)
      modifies this`eventCallbacks, this`subscribed
      ensures var items := Items(old(eventCallbacks));
              if Find(items, name) == |items| then
                result == Error && eventCallbacks == old(eventCallbacks) && subscribed == old(subscribed)
              else
                && result == Ok && eventCallbacks == Some(Removed(items, name))
                && subscribed == (old(subscribed) && Removed(items, name) != [])
    {
      var items := Items(eventCallbacks);
      var i := Find(items, name);
      if i == |items| {
        return Error;
      }
      eventCallbacks := Some(items[..i] + items[i + 1..]);
      if |eventCallbacks.value| == 0 {
        subscribed := false;
      }
      result := Ok;
    }

    method SetInputMessageCallbackImpl(name: InputName, r: Registration, subscribes: bool)
      returns (result: ClientResult)
      modifies this
      ensures View() == Set(old(View()), name, r, subscribes)
      ensures history == old(history) + [Outcome(name, r, result)]
    {
      if r.callback == None && r.callbackEx == None {
        result := RemoveEventUnsubscribeIfNeeded(name);
      } else {
        var registeredWithTransport := eventCallbacks.Some? && eventCallbacks.value != [];
        CreateEventHandlerCallback(name, r);
        if registeredWithTransport {
          result := Ok;
        } else if subscribes {
          subscribed := true;
          result := Ok;
        } else {
          eventCallbacks := None;
          result := Error;
        }
      }
      history := history + [Outcome(name, r, result)];
    }

    // The two calls the user has; nothing else reaches SetInputMessageCallbackImpl.
    method SetInputMessageCallback(name: InputName, callback: Option<nat>, context: nat, subscribes: bool)
      returns (result: ClientResult)
      modifies this
      ensures View() == Apply(old(View()), SetPlain(name, callback, context, subscribes))
      ensures history == old(history) + [Outcome(name, Plain(callback, context), result)]
    {
      result := SetInputMessageCallbackImpl(name, Registration(callback, None, context, None), subscribes);
    }

    method SetInputMessageCallbackEx(name: InputName, callbackEx: Option<nat>, contextEx: Option<seq<bv8>>, subscribes: bool)
      returns (result: ClientResult)
      modifies this
      ensures View() == Apply(old(View()), SetEx(name, callbackEx, contextEx, subscribes))
      ensures history == old(history) + [Outcome(name, Extended(callbackEx, contextEx), result)]
    {
      result := SetInputMessageCallbackImpl(name, Registration(None, callbackEx, 0, contextEx), subscribes);
    }

    // Answers whether the message was handled; an extended handler answers for itself.
    method MessageCallbackFromInput(name: InputName, handlerAnswer: bool)
      returns (handled: bool, invocation: Option<Invocation>)
      requires AllCallable(Items(eventCallbacks))
      ensures invocation == Dispatch(Items(eventCallbacks), name)
      ensures handled == (invocation.Some? && (invocation.value.CallPlain? || handlerAnswer))
    {
      if eventCallbacks == None {
        return false, None;
      }
      var items := eventCallbacks.value;
      var i := Find(items, name);
      if i == |items| {
        i := Find(items, None);
      }
      if i == |items| {
        return false, None;
      }
      if items[i].callbackEx.Some? {
        return handlerAnswer, Some(CallEx(items[i].callbackEx.value, items[i].contextEx));
      }
      return true, Some(CallPlain(items[i].callback.value, items[i].context));
    }
  }

  // ----- Runs -----

  datatype Event =
    | SetPlain(name: InputName, callback: Option<nat>, context: nat, subscribes: bool)
    | SetEx(name: InputName, callbackEx: Option<nat>, contextEx: Option<seq<bv8>>, subscribes: bool)

  // What the two calls ask for; a context not given is null.
  function Plain(callback: Option<nat>, context: nat): Registration {
    Registration(callback, None, context, None)
  }

  function Extended(callbackEx: Option<nat>, contextEx: Option<seq<bv8>>): Registration {
    Registration(None, callbackEx, 0, contextEx)
  }

  function Asked(e: Event): Registration {
    match e
    case SetPlain(_, callback, context, _) => Plain(callback, context)
    case SetEx(_, callbackEx, contextEx, _) => Extended(callbackEx, contextEx)
  }

  function Apply(s: State, e: Event): State {
    Set(s, e.name, Asked(e), e.subscribes)
  }

  ghost predicate IsRun(s: State, events: seq<Event>, t: State)
    decreases |events|
  {
    if events == [] then s == t else IsRun(Apply(s, events[0]), events[1..], t)
  }

  // ----- The reference: what the calls that succeeded left in force -----

  // The newest successful registration for a name, unless it was a removal.
  function Latest(history: seq<Outcome>, name: InputName): (r: Option<Registration>)
    ensures r.Some? ==> !r.value.Removes()
  {
    if history == [] then None
    else
      var last := history[|history| - 1];
      if last.name != name || last.result == Error then Latest(history[..|history| - 1], name)
      else if last.registration.Removes() then None
      else Some(last.registration)
  }

  // The handler and the context that the newest registration gave.
  function OwnInvocation(r: Registration): Invocation
    requires !r.Removes()
  {
    if r.callbackEx.Some? then CallEx(r.callbackEx.value, r.contextEx) else CallPlain(r.callback.value, r.context)
  }

  function ExpectedInvocation(history: seq<Outcome>, name: InputName): Option<Invocation> {
    var chosen := if Latest(history, name).Some? then name else None;
    var r := Latest(history, chosen);
    if r.None? then None else Some(OwnInvocation(r.value))
  }

  ghost predicate UniqueNames(items: seq<EventCallback>) {
    forall i, j :: 0 <= i < j < |items| ==> items[i].inputName != items[j].inputName
  }

  // What the list holds for a name is what the history left in force for it. An entry's plain
  // context is its registration's own, unless an extended context was given instead.
  ghost predicate Agrees(items: seq<EventCallback>, history: seq<Outcome>, name: InputName) {
    var e, r := Lookup(items, name), Latest(history, name);
    && (e.None? <==> r.None?)
    && (r.Some? ==>
          && e.value.callback == r.value.callback && e.value.callbackEx == r.value.callbackEx
          && e.value.contextEx == r.value.contextEx
          && (r.value.contextEx.None? ==> e.value.context == r.value.context)
          && (r.value.callback.Some? ==> r.value.contextEx.None?))
  }

  ghost predicate Faithful(s: State) {
    && UniqueNames(Items(s.list)) && AllCallable(Items(s.list))
    && (s.subscribed <==> Items(s.list) != [])
    && forall name :: Agrees(Items(s.list), s.history, name)
  }

  lemma FindIs(items: seq<EventCallback>, i: nat)
    requires UniqueNames(items) && i < |items|
    ensures Find(items, items[i].inputName) == i
  {
  }

  lemma LookupRegistered(items: seq<EventCallback>, name: InputName, r: Registration, other: InputName)
    requires UniqueNames(items)
    ensures UniqueNames(Registered(items, name, r))
    ensures Lookup(Registered(items, name, r), other)
         == if other != name then Lookup(items, other)
            else Some(Overwritten(if Lookup(items, name).Some? then Lookup(items, name).value else NewEntry(name), r))
  {
    var after := Registered(items, name, r);
    var i := Find(items, other);
    if i < |items| {
      FindIs(after, i);
    } else if other == name {
      FindIs(after, |items|);
    }
  }

  lemma LookupRemoved(items: seq<EventCallback>, name: InputName, other: InputName)
    requires UniqueNames(items)
    ensures UniqueNames(Removed(items, name))
    ensures Lookup(Removed(items, name), other) == if other == name then None else Lookup(items, other)
  {
    var after := Removed(items, name);
    var k := Find(items, name);
    var i := Find(items, other);
    if i < |items| && i != k {
      FindIs(after, if i < k then i else i - 1);
    }
  }

  lemma HistoryExtended(history: seq<Outcome>, o: Outcome, name: InputName)
    ensures Latest(history + [o], name)
         == if o.name != name || o.result == Error then Latest(history, name)
            else if o.registration.Removes() then None else Some(o.registration)
  {
    assert (history + [o])[..|history|] == history;
  }

  lemma RegisteredAgrees(items: seq<EventCallback>, history: seq<Outcome>, name: InputName, r: Registration,
                         other: InputName)
    requires UniqueNames(items) && !r.Removes() && (r.callback.Some? ==> r.contextEx.None?)
    requires Agrees(items, history, other)
    ensures Agrees(Registered(items, name, r), history + [Outcome(name, r, Ok)], other)
  {
    LookupRegistered(items, name, r, other);
    HistoryExtended(history, Outcome(name, r, Ok), other);
  }

  lemma RemovedAgrees(items: seq<EventCallback>, history: seq<Outcome>, name: InputName, r: Registration,
                      other: InputName)
    requires UniqueNames(items) && r.Removes()
    requires Agrees(items, history, other)
    ensures Agrees(Removed(items, name), history + [Outcome(name, r, Ok)], other)
  {
    LookupRemoved(items, name, other);
    HistoryExtended(history, Outcome(name, r, Ok), other);
  }

  lemma SetKeepsFaithful(s: State, name: InputName, r: Registration, subscribes: bool)
    requires Faithful(s) && (r.callback.Some? ==> r.contextEx.None?)
    ensures Faithful(Set(s, name, r, subscribes))
  {
    hide Agrees;
    var items := Items(s.list);
    var t := Set(s, name, r, subscribes);
    forall other ensures Agrees(Items(t.list), t.history, other) {
      assert Agrees(items, s.history, other);
      if t.history[|s.history|].result == Error {
        RefusedAgrees(items, s.history, Outcome(name, r, Error), other);
      } else if r.Removes() {
        RemovedAgrees(items, s.history, name, r, other);
      } else {
        RegisteredAgrees(items, s.history, name, r, other);
      }
    }
    LookupRegistered(items, name, r, name);
    LookupRemoved(items, name, name);
  }

  lemma RefusedAgrees(items: seq<EventCallback>, history: seq<Outcome>, o: Outcome, other: InputName)
    requires Agrees(items, history, other) && o.result == Error
    ensures Agrees(items, history + [o], other)
  {
    HistoryExtended(history, o, other);
  }

  // In every reachable state the names are unique, the transport is subscribed exactly while some
  // handler is registered, a failed subscription included, and the list agrees with the history.
  lemma {:induction false} RunKeepsFaithful(s: State, events: seq<Event>, t: State)
    requires Faithful(s) && IsRun(s, events, t)
    ensures Faithful(t)
    decreases |events|
  {
    hide Faithful;
    if events != [] {
      SetKeepsFaithful(s, events[0].name, Asked(events[0]), events[0].subscribes);
      RunKeepsFaithful(Apply(s, events[0]), events[1..], t);
    }
  }

  // A message is given to the newest handler registered for its input, else to the newest default
  // handler, else to nobody; and the handler gets the context of its own registration.
  lemma DispatchesToLatest(events: seq<Event>, s: State, name: InputName)
    requires IsRun(INITIAL, events, s)
    ensures AllCallable(Items(s.list))
    ensures Dispatch(Items(s.list), name) == ExpectedInvocation(s.history, name)
  {
    RunKeepsFaithful(INITIAL, events, s);
    assert Agrees(Items(s.list), s.history, name);
    assert Agrees(Items(s.list), s.history, None);
  }

  // A registration the transport refuses to subscribe leaves every input handled as before.
  lemma RefusedSubscriptionChangesNothing(events: seq<Event>, s: State, e: Event)
    requires IsRun(INITIAL, events, s) && !Asked(e).Removes() && !e.subscribes && Items(s.list) == []
    ensures var t := Apply(s, e);
            && !t.subscribed && Items(t.list) == Items(s.list)
            && forall input :: ExpectedInvocation(t.history, input) == ExpectedInvocation(s.history, input)
  {
    RunKeepsFaithful(INITIAL, events, s);
    var o := Outcome(e.name, Asked(e), Error);
    forall input ensures ExpectedInvocation(Apply(s, e).history, input) == ExpectedInvocation(s.history, input) {
      HistoryExtended(s.history, o, input);
      HistoryExtended(s.history, o, None);
    }
  }

  // In every reachable state: a removal succeeds exactly when the name has a registration in force, and
  // a registration exactly when the transport is subscribed already or subscribes now.
  lemma SucceedsWhen(events: seq<Event>, s: State, e: Event)
    requires IsRun(INITIAL, events, s)
    ensures Apply(s, e).history <= s.history + [Outcome(e.name, Asked(e), Ok)]
         || Apply(s, e).history <= s.history + [Outcome(e.name, Asked(e), Error)]
    ensures |Apply(s, e).history| == |s.history| + 1
    ensures Asked(e).Removes() ==>
      (Apply(s, e).history[|s.history|].result == Ok <==> Latest(s.history, e.name).Some?)
    ensures !Asked(e).Removes() ==>
      (Apply(s, e).history[|s.history|].result == Ok <==> s.subscribed || e.subscribes)
  {
    RunKeepsFaithful(INITIAL, events, s);
    assert Agrees(Items(s.list), s.history, e.name);
  }

  lemma ExpectedAfter(history: seq<Outcome>, name: InputName, r: Registration)
    ensures !r.Removes() ==>
      ExpectedInvocation(history + [Outcome(name, r, Ok)], name) == Some(OwnInvocation(r))
  {
    hide Latest;
    HistoryExtended(history, Outcome(name, r, Ok), name);
  }

  // In every reachable state: once the plain or the extended call has registered a handler for an
  // input, a message for it is given to that handler, with the context of that call.
  lemma RegisteredIsCalled(events: seq<Event>, s: State, e: Event, more: seq<Event>)
    requires IsRun(INITIAL, events, s) && (s.subscribed || e.subscribes)
    requires more == events + [e]
    ensures e.SetPlain? && e.callback.Some? ==>
      ExpectedInvocation(Apply(s, e).history, e.name) == Some(CallPlain(e.callback.value, e.context))
    ensures e.SetEx? && e.callbackEx.Some? ==>
      ExpectedInvocation(Apply(s, e).history, e.name) == Some(CallEx(e.callbackEx.value, e.contextEx))
    ensures IsRun(INITIAL, more, Apply(s, e))
  {
    hide Set, ExpectedInvocation, Latest;
    RunExtended(INITIAL, events, s, e);
    if !Asked(e).Removes() {
      AnswersOk(events, s, e);
      ExpectedAfter(s.history, e.name, Asked(e));
    }
  }

  lemma AnswersOk(events: seq<Event>, s: State, e: Event)
    requires IsRun(INITIAL, events, s) && (s.subscribed || e.subscribes) && !Asked(e).Removes()
    ensures Apply(s, e).history == s.history + [Outcome(e.name, Asked(e), Ok)]
  {
    RunKeepsFaithful(INITIAL, events, s);
  }

  lemma {:induction false} RunExtended(s: State, events: seq<Event>, t: State, e: Event)
    requires IsRun(s, events, t)
    ensures IsRun(s, events + [e], Apply(t, e))
    decreases |events|
  {
    hide Apply;
    var longer := events + [e];
    if events == [] {
      assert longer[1..] == [] && IsRun(Apply(t, e), [], Apply(t, e));
    } else {
      assert longer[1..] == events[1..] + [e];
      RunExtended(Apply(s, events[0]), events[1..], t, e);
    }
  }
}
