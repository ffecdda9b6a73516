/** The low-level client handle: its lists are updated in place, and each operation is proved to do
    to them what the queue modules say. */
module LowLevelClient {
  import opened Options
  import opened Sequences
  import opened Words
  import opened Ledger
  import D = DiagnosticSampling
  import M = Telemetry
  import T = TwinReports

  datatype ClientResult = Ok | InvalidArg | Error

  // What the calls below the client answer during one SendEventAsync: the allocation, the clock,
  // the clone and, for a sampled message, the diagnostic properties.
  datatype SendAnswers = SendAnswers(allocates: bool, tick: Option<M.Tick>, clones: bool, annotates: bool)

  class ClientHandle {
    const diagnosticSetting: D.DiagnosticSetting
    var waitingToSend: seq<M.Message>
    var currentMessageTimeout: M.Tick
    var iotMsgQueue: seq<T.Report>
    var iotAckQueue: seq<T.Report>
    var dataMsgId: uint32

    // The user callbacks run so far.
    var confirmations: seq<UserCall<M.Confirmation>>
    var statusCalls: seq<UserCall<int>>

    // History. `accepted` and `issued` number the entries; the transport holds `inFlight`.
    var accepted: seq<M.Message>
    var issued: nat
    ghost var inFlight: multiset<M.Message>
    ghost var finishedMessages: seq<Finish<M.Deadline, M.Confirmation>>
    ghost var now: M.Tick
    ghost var submitted: seq<T.Report>
    ghost var finishedReports: seq<Finish<uint32, int>>
    ghost var dropped: seq<T.Report>

    ghost function Messages(): M.State
      reads this
    {
      M.State(waitingToSend, inFlight, currentMessageTimeout, accepted, finishedMessages, confirmations, now)
    }

    ghost function Reports(): T.State
      reads this
    {
      T.State(iotMsgQueue, iotAckQueue, dataMsgId, issued, submitted, finishedReports, dropped, statusCalls)
    }

    ghost predicate Valid()
      reads this, diagnosticSetting
    {
      M.Conserved(Messages()) && T.Conserved(Reports()) && T.IdsMatch(Reports()) && diagnosticSetting.Valid()
    }

    constructor ()
      ensures Valid() && fresh(diagnosticSetting)
      ensures Messages() == M.INITIAL && Reports() == T.INITIAL && diagnosticSetting.diagSamplingPercentage == 0
    {
      diagnosticSetting := new D.DiagnosticSetting();
      waitingToSend, currentMessageTimeout, confirmations, accepted := [], 0, [], [];
      inFlight, finishedMessages, now := multiset{}, [], 0;
      iotMsgQueue, iotAckQueue, dataMsgId, statusCalls, issued := [], [], 1, [], 0;
      submitted, finishedReports, dropped := [], [], [];
    }

    // ----- Telemetry -----

    // The stamp and timeout of a new entry; none when the clock cannot be read.
    method AttachMsTimesOutAfter(tick: Option<M.Tick>) returns (deadline: Option<M.Deadline>)
      ensures deadline == if currentMessageTimeout == 0 then Some(M.Deadline(0, 0))
                          else if tick == None then None
                          else Some(M.Deadline(tick.value, currentMessageTimeout))
    {
      if currentMessageTimeout == 0 {
        return Some(M.Deadline(0, 0));
      } else if tick == None {
        return None;
      }
      return Some(M.Deadline(tick.value, currentMessageTimeout));
    }

    // A message is accepted at the tail of the list, or nothing changes but the sampling counter,
    // which has stepped if the message had been cloned.
    method SendEventAsync(hasMessage: bool, callback: Option<nat>, context: nat, answers: SendAnswers)
      returns (result: ClientResult, diagnosed: bool)
      requires Valid() && (answers.tick.Some? ==> now <= answers.tick.value)
      modifies this, diagnosticSetting
      ensures Valid() && Reports() == old(Reports())
      ensures result == InvalidArg <==> !hasMessage || (callback.None? && context != 0)
      ensures var stamped := old(currentMessageTimeout) == 0 || answers.tick.Some?;
              var cloned := result != InvalidArg && answers.allocates && stamped && answers.clones;
              var percentage := diagnosticSetting.diagSamplingPercentage;
              && percentage == old(diagnosticSetting.diagSamplingPercentage)
              && diagnosticSetting.offered == old(diagnosticSetting.offered) + (if cloned && percentage > 0 then 1 else 0)
              && diagnosed == (cloned && percentage > 0 && D.Sampled(percentage, diagnosticSetting.offered))
              && (result == Ok <==> cloned && (diagnosed ==> answers.annotates))
      ensures Messages() == if result != Ok then old(Messages())
                            else M.Accept(old(Messages()), callback, context,
                                          if answers.tick.Some? then answers.tick.value else 0)
      // The new message is the caller's: it carries the callback and context given.
      ensures result == Ok ==>
                && |accepted| == |old(accepted)| + 1 && old(accepted) <= accepted
                && waitingToSend == old(waitingToSend) + [accepted[|accepted| - 1]]
                && accepted[|accepted| - 1].callback == callback && accepted[|accepted| - 1].context == context
                && confirmations == old(confirmations)
      ensures result == Ok ==>
                var tick := if answers.tick.Some? then answers.tick.value else old(now);
                M.StepsTo(old(Messages()), M.Send(callback, context, tick), Messages())
    {
      hide M.Conserved, T.Conserved, T.IdsMatch;
      diagnosed := false;
      if !hasMessage || (callback == None && context != 0) {
        return InvalidArg, diagnosed;
      }
      if !answers.allocates {
        return Error, diagnosed;
      }
      var deadline := AttachMsTimesOutAfter(answers.tick);
      if deadline == None || !answers.clones {
        return Error, diagnosed;
      }
      diagnosed := diagnosticSetting.ShouldAddDiagnosticInfo();
      if diagnosed && !answers.annotates {
        return Error, diagnosed;
      }
      AppendMessage(callback, context, deadline.value, if answers.tick.Some? then answers.tick.value else 0);
      result := Ok;
    }

    method AppendMessage(callback: Option<nat>, context: nat, deadline: M.Deadline, ghost tick: M.Tick)
      requires M.Conserved(Messages()) && (currentMessageTimeout != 0 ==> now <= tick)
      requires deadline == if currentMessageTimeout == 0 then M.Deadline(0, 0) else M.Deadline(tick, currentMessageTimeout)
      modifies this`waitingToSend, this`accepted, this`now
      ensures M.Conserved(Messages()) && Messages() == M.Accept(old(Messages()), callback, context, tick)
      ensures accepted == old(accepted) + [Entry(|old(accepted)|, callback, context, deadline)]
      ensures waitingToSend == old(waitingToSend) + [accepted[|old(accepted)|]]
    {
      hide M.Conserved;
      M.SendKeepsConserved(Messages(), callback, context, if currentMessageTimeout == 0 then now else tick);
      var entry := Entry(|accepted|, callback, context, deadline);
      waitingToSend := waitingToSend + [entry];
      accepted := accepted + [entry];
      now := if currentMessageTimeout == 0 then now else tick;
    }

    // OPTION_MESSAGE_TIMEOUT: for messages sent from now on.
    method SetMessageTimeout(value: M.Tick)
      requires Valid()
      modifies this`currentMessageTimeout
      ensures Valid() && Messages() == old(Messages()).(currentTimeout := value) && Reports() == old(Reports())
      ensures M.StepsTo(old(Messages()), M.SetMessageTimeout(value), Messages())
    {
      currentMessageTimeout := value;
    }

    // OPTION_DIAGNOSTIC_SAMPLING_PERCENTAGE.
    method SetDiagnosticSamplingPercentage(value: nat) returns (result: ClientResult)
      requires Valid()
      modifies diagnosticSetting
      ensures Valid() && Messages() == old(Messages()) && Reports() == old(Reports())
      ensures result == if value <= 100 then Ok else Error
      ensures diagnosticSetting.diagSamplingPercentage
           == if value <= 100 then value else old(diagnosticSetting.diagSamplingPercentage)
      ensures diagnosticSetting.offered == if value <= 100 then 0 else old(diagnosticSetting.offered)
    {
      var ok := diagnosticSetting.SetSamplingPercentage(value);
      result := if ok then Ok else Error;
    }

    // An entry's callback, if any, is run with the result.
    method Confirm(entry: M.Message, result: M.Confirmation)
      modifies this`confirmations, this`finishedMessages
      ensures confirmations == old(confirmations) + CallFor(entry, result)
      ensures entry.callback.None? ==> confirmations == old(confirmations)
      ensures entry.callback.Some? ==>
                confirmations == old(confirmations) + [UserCall(entry.id, entry.callback.value, entry.context, result)]
      ensures finishedMessages == old(finishedMessages) + [Finish(entry, result)]
    {
      if entry.callback != None {
        confirmations := confirmations + [UserCall(entry.id, entry.callback.value, entry.context, result)];
      }
      finishedMessages := finishedMessages + [Finish(entry, result)];
    }

    method RemoveExpired(nowTick: M.Tick)
      modifies this`waitingToSend, this`confirmations, this`finishedMessages
      ensures waitingToSend == M.Unexpired(old(waitingToSend), nowTick)
      ensures confirmations
           == old(confirmations) + CallsFor(M.TimedOut(old(waitingToSend), nowTick), M.MessageTimeout)
      ensures finishedMessages
           == old(finishedMessages) + Finishes(M.TimedOut(old(waitingToSend), nowTick), M.MessageTimeout)
    {
      hide M.Select, M.Expired, CallsFor, CallFor, Finishes;
      ghost var all := waitingToSend;
      ghost var done := 0;
      ghost var kept: seq<M.Message>, removed: seq<M.Message> := [], [];
      var i := 0;
      M.NothingSelected(all, nowTick);
      NothingOwed(confirmations, finishedMessages, M.MessageTimeout);
      while i < |waitingToSend|
        invariant done <= |all| && i == |kept|
        invariant kept == M.Unexpired(all[..done], nowTick) && removed == M.TimedOut(all[..done], nowTick)
        invariant waitingToSend == kept + all[done..]
        invariant confirmations == old(confirmations) + CallsFor(removed, M.MessageTimeout)
        invariant finishedMessages == old(finishedMessages) + Finishes(removed, M.MessageTimeout)
        decreases |waitingToSend| - i
      {
        var fullEntry := waitingToSend[i];
        AtSeam(kept, all, done);
        M.SelectNext(all, done, nowTick);
        if M.Expired(fullEntry, nowTick) {
          waitingToSend := waitingToSend[..i] + waitingToSend[i + 1..];
          Confirm(fullEntry, M.MessageTimeout);
          OneMore(removed, fullEntry, M.MessageTimeout);
          removed := removed + [fullEntry];
        } else {
          i := i + 1;
          kept := kept + [fullEntry];
        }
        done := done + 1;
      }
      assert all[..done] == all;
    }

    method DoTimeouts(tick: Option<M.Tick>)
      requires Valid() && (tick.Some? ==> now <= tick.value)
      modifies this`waitingToSend, this`confirmations, this`finishedMessages, this`now
      ensures Valid() && Reports() == old(Reports())
      ensures Messages() == if tick.None? then old(Messages()) else M.DoTimeouts(old(Messages()), tick.value)
      ensures tick.Some? ==> M.StepsTo(old(Messages()), M.Timeouts(tick.value), Messages())
    {
      hide M.Conserved, T.Conserved, T.IdsMatch, M.Select, CallsFor, Finishes;
      if tick != None {
        M.TimeoutsKeepConserved(Messages(), tick.value);
        RemoveExpired(tick.value);
        now := tick.value;
      }
    }

    // The transport reports a list of messages it held; they are emptied from its head.
    method SendComplete(completed: seq<M.Message>, result: M.Confirmation)
      requires Valid() && multiset(completed) <= inFlight
      modifies this`confirmations, this`finishedMessages, this`inFlight
      ensures Valid() && Reports() == old(Reports())
      ensures Messages() == M.SendComplete(old(Messages()), completed, result)
      ensures M.StepsTo(old(Messages()), M.TransportCompletes(completed, result), Messages())
    {
      hide M.Conserved, T.Conserved, T.IdsMatch, CallsFor, Finishes;
      M.CompleteKeepsConserved(Messages(), completed, result);
      ConfirmAll(completed, result);
      inFlight := inFlight - multiset(completed);
    }

    method ConfirmAll(entries: seq<M.Message>, result: M.Confirmation)
      modifies this`confirmations, this`finishedMessages
      ensures confirmations == old(confirmations) + CallsFor(entries, result)
      ensures finishedMessages == old(finishedMessages) + Finishes(entries, result)
    {
      hide CallsFor, CallFor, Finishes;
      NothingOwed(confirmations, finishedMessages, result);
      var rest := entries;
      ghost var done := 0;
      while rest != []
        invariant done <= |entries| && rest == entries[done..]
        invariant confirmations == old(confirmations) + CallsFor(entries[..done], result)
        invariant finishedMessages == old(finishedMessages) + Finishes(entries[..done], result)
        decreases |rest|
      {
        var oldest := rest[0];
        rest := rest[1..];
        Confirm(oldest, result);
        OneMore(entries[..done], oldest, result);
        done := done + 1;
        assert entries[..done] == entries[..done - 1] + [oldest];
      }
      assert entries[..done] == entries;
    }

    // ----- Twin reports -----

    method GetNextItemId() returns (id: uint32)
      modifies this`dataMsgId, this`issued
      ensures id == dataMsgId == T.NextItemId(old(dataMsgId)) && issued == old(issued) + 1
    {
      if (dataMsgId + 1) % UINT32_RANGE >= UINT32_MAX {
        dataMsgId := 1;
      } else {
        dataMsgId := (dataMsgId + 1) % UINT32_RANGE;
      }
      issued := issued + 1;
      id := dataMsgId;
    }

    method SendReportedState(hasState: bool, size: nat, callback: Option<nat>, context: nat, created: bool, subscribes: bool)
      returns (result: ClientResult)
      requires Valid()
      modifies this
      ensures Valid() && Messages() == old(Messages())
      ensures result == if !hasState || size == 0 then InvalidArg else if created && subscribes then Ok else Error
      ensures Reports() == if result == InvalidArg then old(Reports())
                           else T.Send(old(Reports()), callback, context, result == Ok)
      ensures result != InvalidArg ==>
                T.StepsTo(old(Reports()), T.SendReport(callback, context, result == Ok), Reports())
      // An id is used up even when the report is not queued; a queued one is the caller's.
      ensures issued == old(issued) + (if result == InvalidArg then 0 else 1)
      ensures result == Ok ==>
                iotMsgQueue == old(iotMsgQueue) + [Entry(issued, callback, context, T.NextItemId(old(dataMsgId)))]
      ensures result != Ok ==> iotMsgQueue == old(iotMsgQueue)
    {
      hide M.Conserved, T.Conserved, T.IdsMatch;
      if !hasState || size == 0 {
        return InvalidArg;
      }
      T.SendKeepsConserved(Reports(), callback, context, created && subscribes);
      T.SendKeepsIds(Reports(), callback, context, created && subscribes);
      var id := GetNextItemId();
      if !created || !subscribes {
        return Error;
      }
      var report := Entry(issued, callback, context, id);
      iotMsgQueue := iotMsgQueue + [report];
      submitted := submitted + [report];
      result := Ok;
    }

    // The reports offered before the first answer that stops the pass have left the message queue:
    // those answered "ok" wait for an acknowledgement, those answered "error" are dropped.
    ghost predicate Sorted(queued: seq<T.Report>, waiting: seq<T.Report>, gone: seq<T.Report>,
                           answers: seq<T.ProcessResult>)
      requires |answers| == |queued|
      reads this
    {
      var k := T.Taken(answers);
      && iotMsgQueue == queued[k..]
      && iotAckQueue == waiting + T.Answered(queued[..k], answers[..k], T.ProcessOk)
      && dropped == gone + T.Answered(queued[..k], answers[..k], T.ProcessError)
    }

    // The transport is offered the reports from the head of the queue until it stops taking them.
    method OfferReports(answers: seq<T.ProcessResult>)
      requires |answers| == |iotMsgQueue|
      modifies this`iotMsgQueue, this`iotAckQueue, this`dropped
      ensures Reports() == T.Process(old(Reports()), answers)
      ensures Sorted(old(iotMsgQueue), old(iotAckQueue), old(dropped), answers)
    {
      hide T.Answered;
      T.ProcessSorts(Reports(), answers);
      var asked := 0;
      assert answers[asked..] == answers;
      while iotMsgQueue != []
        invariant asked + |iotMsgQueue| == |answers|
        invariant T.Process(Reports(), answers[asked..]) == T.Process(old(Reports()), answers)
        decreases |iotMsgQueue|
      {
        var processResult := answers[asked];
        if processResult == T.ProcessContinue || processResult == T.ProcessNotConnected {
          break;
        }
        var queueData := iotMsgQueue[0];
        iotMsgQueue := iotMsgQueue[1..];
        if processResult == T.ProcessOk {
          iotAckQueue := iotAckQueue + [queueData];
        } else {
          dropped := dropped + [queueData];
        }
        assert answers[asked..][1..] == answers[asked + 1..];
        asked := asked + 1;
      }
    }

    // `answers` holds what ProcessItem would answer for each queued report.
    method DoWork(tick: Option<M.Tick>, answers: seq<T.ProcessResult>)
      requires Valid() && |answers| == |iotMsgQueue| && (tick.Some? ==> now <= tick.value)
      modifies this
      ensures Valid() && Reports() == T.Process(old(Reports()), answers)
      ensures T.StepsTo(old(Reports()), T.DoWork(answers), Reports())
      ensures Sorted(old(iotMsgQueue), old(iotAckQueue), old(dropped), answers)
      ensures Messages() == if tick.None? then old(Messages()) else M.DoTimeouts(old(Messages()), tick.value)
    {
      hide M.Conserved, T.Conserved, T.IdsMatch, T.Answered, T.Taken, T.Process, M.Select;
      DoTimeouts(tick);
      T.ProcessKeepsConserved(Reports(), answers);
      T.OthersKeepIds(Reports(), T.Process(Reports(), answers));
      OfferReports(answers);
    }

    method TellStatus(entry: T.Report, status: int)
      modifies this`statusCalls, this`finishedReports
      ensures statusCalls == old(statusCalls) + CallFor(entry, status)
      ensures entry.callback.None? ==> statusCalls == old(statusCalls)
      ensures entry.callback.Some? ==>
                statusCalls == old(statusCalls) + [UserCall(entry.id, entry.callback.value, entry.context, status)]
      ensures finishedReports == old(finishedReports) + [Finish(entry, status)]
    {
      if entry.callback != None {
        statusCalls := statusCalls + [UserCall(entry.id, entry.callback.value, entry.context, status)];
      }
      finishedReports := finishedReports + [Finish(entry, status)];
    }

    method ReportedStateComplete(itemId: uint32, status: int)
      requires Valid()
      modifies this`iotAckQueue, this`statusCalls, this`finishedReports
      ensures Valid() && Messages() == old(Messages())
      ensures Reports() == T.Complete(old(Reports()), itemId, status)
      ensures T.StepsTo(old(Reports()), T.Acknowledge(itemId, status), Reports())
      ensures var i := T.FirstWithId(old(iotAckQueue), itemId);
              && (i == |old(iotAckQueue)| ==> Reports() == old(Reports()))
              && (i < |old(iotAckQueue)| ==> T.Acknowledged(old(Reports()), i, status, Reports()))
    {
      hide M.Conserved, T.Conserved, T.IdsMatch, T.Acknowledged;
      T.CompletesTheFirst(Reports(), itemId, status);
      T.CompleteKeepsConserved(Reports(), itemId, status);
      T.OthersKeepIds(Reports(), T.Complete(Reports(), itemId, status));
      ghost var first := T.FirstWithId(iotAckQueue, itemId);
      var i := 0;
      while i < |iotAckQueue|
        invariant i <= first && Reports() == old(Reports())
      {
        var queueData := iotAckQueue[i];
        if queueData.payload == itemId {
          assert first == i;
          TellStatus(queueData, status);
          iotAckQueue := iotAckQueue[..i] + iotAckQueue[i + 1..];
          break;
        }
        i := i + 1;
      }
    }

    method TellAll(entries: seq<T.Report>, status: int)
      modifies this`statusCalls, this`finishedReports
      ensures statusCalls == old(statusCalls) + CallsFor(entries, status)
      ensures finishedReports == old(finishedReports) + Finishes(entries, status)
    {
      hide CallsFor, CallFor, Finishes;
      NothingOwed(statusCalls, finishedReports, status);
      var rest := entries;
      ghost var done := 0;
      while rest != []
        invariant done <= |entries| && rest == entries[done..]
        invariant statusCalls == old(statusCalls) + CallsFor(entries[..done], status)
        invariant finishedReports == old(finishedReports) + Finishes(entries[..done], status)
        decreases |rest|
      {
        var oldest := rest[0];
        rest := rest[1..];
        TellStatus(oldest, status);
        OneMore(entries[..done], oldest, status);
        done := done + 1;
        assert entries[..done] == entries[..done - 1] + [oldest];
      }
      assert entries[..done] == entries;
    }

    // ----- Destruction -----

    // After the transport has been unregistered, it holds nothing: every accepted message and every
    // report not refused by the transport has then been told, once.
    method Destroy()
      requires Valid() && inFlight == multiset{}
      modifies this
      ensures Valid()
      ensures Messages() == M.DrainWaiting(old(Messages())) && Reports() == T.Destroy(old(Reports()))
      ensures M.StepsTo(old(Messages()), M.Drain, Messages())
      ensures T.StepsTo(old(Reports()), T.DestroyAll, Reports())
      ensures forall id :: 0 <= id < |accepted| ==>
                CountCalls(confirmations, id) == if accepted[id].callback.Some? then 1 else 0
      ensures forall k :: 0 <= k < |submitted| ==>
                CountCalls(statusCalls, submitted[k].id)
                == if submitted[k].callback.Some? && submitted[k] !in dropped then 1 else 0
    {
      hide M.Conserved, T.Conserved, T.IdsMatch;
      M.DrainTells(Messages());
      T.DestructionTells(Reports());
      T.OthersKeepIds(Reports(), T.Destroy(Reports()));
      DrainLists();
    }

    method DrainLists()
      modifies this`waitingToSend, this`confirmations, this`finishedMessages, this`iotMsgQueue, this`iotAckQueue,
               this`statusCalls, this`finishedReports
      ensures Messages() == M.DrainWaiting(old(Messages())) && Reports() == T.Destroy(old(Reports()))
    {
      hide CallsFor, Finishes;
      ConfirmAll(waitingToSend, M.BecauseDestroy);
      waitingToSend := [];
      TellAll(iotMsgQueue, T.ERROR_CODE_BECAUSE_DESTROY);
      iotMsgQueue := [];
      TellAll(iotAckQueue, T.ERROR_CODE_BECAUSE_DESTROY);
      iotAckQueue := [];
    }

    // ----- The transport's side -----

    method TransportTakes(i: nat)
      requires Valid() && i < |waitingToSend|
      modifies this`waitingToSend, this`inFlight
      ensures Valid() && Messages() == M.Take(old(Messages()), i) && Reports() == old(Reports())
      ensures M.StepsTo(old(Messages()), M.TransportTakes(i), Messages())
    {
      hide M.Conserved, T.Conserved, T.IdsMatch;
      M.TakeKeepsConserved(Messages(), i);
      inFlight := inFlight + multiset{waitingToSend[i]};
      waitingToSend := waitingToSend[..i] + waitingToSend[i + 1..];
    }

    method TransportPutsBack(entry: M.Message, i: nat)
      requires Valid() && entry in inFlight && i <= |waitingToSend|
      modifies this`waitingToSend, this`inFlight
      ensures Valid() && Messages() == M.PutBack(old(Messages()), entry, i) && Reports() == old(Reports())
      ensures M.StepsTo(old(Messages()), M.TransportPutsBack(entry, i), Messages())
    {
      hide M.Conserved, T.Conserved, T.IdsMatch;
      M.PutBackKeepsConserved(Messages(), entry, i);
      inFlight := inFlight - multiset{entry};
      waitingToSend := waitingToSend[..i] + [entry] + waitingToSend[i..];
    }
  }

  lemma NothingOwed<P, R>(calls: seq<UserCall<R>>, finished: seq<Finish<P, R>>, result: R)
    ensures calls + CallsFor<P, R>([], result) == calls && finished + Finishes<P, R>([], result) == finished
  {
  }

  lemma OneMore<P, R>(entries: seq<Entry<P>>, entry: Entry<P>, result: R)
    ensures CallsFor(entries + [entry], result) == CallsFor(entries, result) + CallFor(entry, result)
    ensures Finishes(entries + [entry], result) == Finishes(entries, result) + [Finish(entry, result)]
  {
    assert (entries + [entry])[..|entries|] == entries;
  }
}
