/** The records of upload threads of an unshared client: each is listed, handed to a thread that marks
    it when it is finished, and collected by the client's worker or by its destruction. */
module UploadThreads {
  import opened Options
  import opened Sequences

  type Record = nat

  // Each record is made by one call and used by at most one upload thread. The worker and the
  // destruction collect.
  datatype Who = Starter(record: Record) | Upload(record: Record) | Collector(destroys: bool)

  datatype Lock = ClientLock | GarbageLock(record: Record)

  datatype Pc =
    // startHttpWorkerThread, then what its caller does when it fails
    | StartLock(record: Record)
    | StartAdd(record: Record)
    | StartCreate(record: Record)
    | StartRemove(record: Record)
    | StartUnlock(record: Record, ok: bool)
    | StartFree(record: Record)
    | Returned
    // the upload, then markThreadReadyToBeGarbageCollected
    | Uploading(record: Record)
    | MarkLock(record: Record)
    | MarkIn(record: Record)
    | MarkUnlock(record: Record)
    | Exiting(record: Record)
    | Exited
    // garbageCollectorImpl, and the loop around it in the destruction
    | Outside
    | CollectLock
    | CollectAt(at: nat)
    | GarbageWant(at: nat, record: Record)
    | GarbageTest(at: nat, record: Record)
    | GarbageSkip(at: nat, record: Record)
    | GarbageJoin(at: nat, record: Record)
    | GarbageRemove(at: nat, record: Record)
    | GarbageUnlock(at: nat, record: Record)
    | GarbageFree(at: nat, record: Record)
    | CollectUnlock
    | Finished

  // `flagged` holds the records whose thread has marked them; `started` and `freed` are history.
  datatype State = State(
    threads: map<Who, Pc>,
    owners: map<Lock, Who>,
    list: seq<Record>,
    flagged: set<Record>,
    started: set<Record>,
    freed: seq<Record>)

  // Which thread steps, and whether a thread creation succeeds.
  datatype Choice = Choice(who: Who, ok: bool)

  // ----- Locks -----

  function Wants(pc: Pc): Option<Lock> {
    match pc
    case StartLock(_) | CollectLock => Some(ClientLock)
    case MarkLock(r) => Some(GarbageLock(r))
    case GarbageWant(_, r) => Some(GarbageLock(r))
    case _ => None
  }

  function Releases(pc: Pc): Option<Lock> {
    match pc
    case StartUnlock(_, _) | CollectUnlock => Some(ClientLock)
    case MarkUnlock(r) => Some(GarbageLock(r))
    case GarbageSkip(_, r) => Some(GarbageLock(r))
    case GarbageUnlock(_, r) => Some(GarbageLock(r))
    case _ => None
  }

  predicate Collects(pc: Pc) {
    || pc.CollectAt? || pc.GarbageWant? || pc.GarbageTest? || pc.GarbageSkip? || pc.GarbageJoin?
    || pc.GarbageRemove? || pc.GarbageUnlock? || pc.GarbageFree? || pc.CollectUnlock?
  }

  predicate Holds(pc: Pc, lock: Lock) {
    match lock
    case ClientLock => pc.StartAdd? || pc.StartCreate? || pc.StartRemove? || pc.StartUnlock? || Collects(pc)
    case GarbageLock(r) =>
      && (pc.MarkIn? || pc.MarkUnlock? || pc.GarbageTest? || pc.GarbageSkip? || pc.GarbageJoin? || pc.GarbageRemove?
          || pc.GarbageUnlock?)
      && pc.record == r
  }

  // ----- Steps -----

  predicate Ended(pc: Pc) {
    pc.Returned? || pc.Exited? || pc.Finished?
  }

  predicate HasExited(s: State, r: Record) {
    Upload(r) in s.threads && s.threads[Upload(r)] == Exited
  }

  // A thread not there yet may only be a call with a new record.
  predicate Enabled(s: State, x: Choice) {
    if x.who !in s.threads then x.who.Starter?
    else
      var pc := s.threads[x.who];
      && !Ended(pc)
      && (Wants(pc).Some? ==> Wants(pc).value !in s.owners)
      && (pc.GarbageJoin? ==> HasExited(s, pc.record))
  }

  function NextPc(s: State, pc: Pc, x: Choice): Pc {
    match pc
    case StartLock(r) => StartAdd(r)
    case StartAdd(r) => StartCreate(r)
    case StartCreate(r) => if x.ok then StartUnlock(r, true) else StartRemove(r)
    case StartRemove(r) => StartUnlock(r, false)
    case StartUnlock(r, ok) => if ok then Returned else StartFree(r)
    case StartFree(_) => Returned
    case Returned => Returned
    case Uploading(r) => MarkLock(r)
    case MarkLock(r) => MarkIn(r)
    case MarkIn(r) => MarkUnlock(r)
    case MarkUnlock(r) => Exiting(r)
    case Exiting(_) => Exited
    case Exited => Exited
    case Outside => CollectLock
    case CollectLock => CollectAt(0)
    case CollectAt(i) =>
      if i < |s.list| then GarbageWant(i, s.list[i])
      else if x.who == Collector(true) && s.list != [] then CollectAt(0)
      else CollectUnlock
    case GarbageWant(i, r) => GarbageTest(i, r)
    case GarbageTest(i, r) => if r in s.flagged then GarbageJoin(i, r) else GarbageSkip(i, r)
    case GarbageSkip(i, r) => CollectAt(i + 1)
    case GarbageJoin(i, r) => GarbageRemove(i, r)
    case GarbageRemove(i, r) => GarbageUnlock(i, r)
    case GarbageUnlock(i, r) => GarbageFree(i, r)
    case GarbageFree(i, r) => CollectAt(i)
    case CollectUnlock => if x.who == Collector(true) then Finished else Outside
    case Finished => Finished
  }

  function NextOwners(s: State, who: Who, pc: Pc): map<Lock, Who> {
    if Wants(pc).Some? then s.owners[Wants(pc).value := who]
    else if Releases(pc).Some? then s.owners - {Releases(pc).value}
    else s.owners
  }

  function Position(list: seq<Record>, r: Record): (i: nat)
    ensures i <= |list|
    ensures i < |list| ==> list[i] == r
    ensures i == |list| ==> r !in list
  {
    if list == [] || list[0] == r then 0 else 1 + Position(list[1..], r)
  }

  function Without(list: seq<Record>, i: nat): seq<Record> {
    if i < |list| then list[..i] + list[i + 1..] else list
  }

  function NextList(s: State, pc: Pc): seq<Record> {
    match pc
    case StartAdd(r) => s.list + [r]
    case StartRemove(r) => Without(s.list, Position(s.list, r))
    case GarbageRemove(i, _) => Without(s.list, i)
    case _ => s.list
  }

  function NextThreads(s: State, x: Choice): map<Who, Pc>
    requires Enabled(s, x)
  {
    if x.who !in s.threads then s.threads[x.who := StartLock(x.who.record)]
    else
      var pc := s.threads[x.who];
      var stepped := s.threads[x.who := NextPc(s, pc, x)];
      if pc.StartCreate? && x.ok then stepped[Upload(pc.record) := Uploading(pc.record)] else stepped
  }

  function Step(s: State, x: Choice): State
    requires Enabled(s, x)
  {
    if x.who !in s.threads then s.(threads := NextThreads(s, x))
    else
      var pc := s.threads[x.who];
      State(NextThreads(s, x), NextOwners(s, x.who, pc), NextList(s, pc),
            if pc.MarkIn? then s.flagged + {pc.record} else s.flagged,
            if pc.StartCreate? && x.ok then s.started + {pc.record} else s.started,
            if pc.StartFree? || pc.GarbageFree? then s.freed + [pc.record] else s.freed)
  }

  ghost predicate Initial(s: State) {
    && s == State(map[Collector(false) := Outside, Collector(true) := Outside], map[], [], {}, {}, [])
  }

  ghost predicate IsRun(s: State, choices: seq<Choice>, t: State)
    decreases |choices|
  {
    if choices == [] then s == t
    else Enabled(s, choices[0]) && IsRun(Step(s, choices[0]), choices[1..], t)
  }

  // ----- Mutual exclusion -----

  ghost predicate Locked(s: State) {
    forall who, lock ::
      (lock in s.owners && s.owners[lock] == who) <==> (who in s.threads && Holds(s.threads[who], lock))
  }

  lemma HoldsAfterStep(s: State, pc: Pc, x: Choice, lock: Lock)
    ensures Holds(NextPc(s, pc, x), lock)
        <==> Wants(pc) == Some(lock) || (Releases(pc) != Some(lock) && Holds(pc, lock))
    ensures Releases(pc) == Some(lock) ==> Holds(pc, lock)
    ensures Wants(pc).Some? ==> Releases(pc).None?
  {
  }

  // A thread at its first position holds nothing.
  lemma NewcomersHoldNothing(r: Record, lock: Lock)
    ensures !Holds(StartLock(r), lock) && !Holds(Uploading(r), lock)
  {
  }

  lemma StepKeepsLocked(s: State, x: Choice)
    requires Locked(s) && Enabled(s, x) && Cast(s) && Lives(s)
    ensures Locked(Step(s, x))
  {
    hide NextPc, Holds, Wants, Releases, InRole;
    var after := Step(s, x);
    forall who, lock
      ensures (lock in after.owners && after.owners[lock] == who)
          <==> (who in after.threads && Holds(after.threads[who], lock))
    {
      assert (lock in s.owners && s.owners[lock] == x.who) <==> (x.who in s.threads && Holds(s.threads[x.who], lock));
      assert (lock in s.owners && s.owners[lock] == who) <==> (who in s.threads && Holds(s.threads[who], lock));
      if x.who in s.threads {
        var pc := s.threads[x.who];
        HoldsAfterStep(s, pc, x, lock);
        if pc.StartCreate? && x.ok {
          NewcomersHoldNothing(pc.record, lock);
          StarterAtCreate(s, x.who);
        }
      } else {
        NewcomersHoldNothing(x.who.record, lock);
      }
    }
  }

  // A thread being created was not there before.
  lemma StarterAtCreate(s: State, who: Who)
    requires Cast(s) && Lives(s) && who in s.threads && s.threads[who].StartCreate?
    ensures who == Starter(s.threads[who].record) && Upload(s.threads[who].record) !in s.threads
  {
    assert InRole(who, s.threads[who]);
    assert LifeOk(LifeOf(s, s.threads[who].record));
  }

  // ----- Roles -----

  // Every thread is at a position of its own procedure, for its own record.
  predicate InRole(who: Who, pc: Pc) {
    match who
    case Starter(r) =>
      pc.Returned? || ((pc.StartLock? || pc.StartAdd? || pc.StartCreate? || pc.StartRemove? || pc.StartUnlock?
                        || pc.StartFree?) && pc.record == r)
    case Upload(r) =>
      pc.Exited? || ((pc.Uploading? || pc.MarkLock? || pc.MarkIn? || pc.MarkUnlock? || pc.Exiting?) && pc.record == r)
    case Collector(_) => pc.Outside? || pc.CollectLock? || Collects(pc) || pc.Finished?
  }

  ghost predicate Cast(s: State) {
    forall who :: who in s.threads ==> InRole(who, s.threads[who])
  }

  lemma RoleAfterStep(s: State, who: Who, pc: Pc, x: Choice)
    requires InRole(who, pc)
    ensures InRole(who, NextPc(s, pc, x))
    ensures pc.StartCreate? ==> who == Starter(pc.record) && InRole(Upload(pc.record), Uploading(pc.record))
  {
  }

  lemma NewcomerInRole(r: Record)
    ensures InRole(Starter(r), StartLock(r))
  {
  }

  lemma StepKeepsCast(s: State, x: Choice)
    requires Cast(s) && Enabled(s, x)
    ensures Cast(Step(s, x))
  {
    hide InRole, NextPc, Wants;
    if x.who in s.threads {
      RoleAfterStep(s, x.who, s.threads[x.who], x);
    } else {
      NewcomerInRole(x.who.record);
    }
  }

  // ----- One collection, by a thread without interference -----

  // The records of a list that are marked (or are not), in order.
  function Marked(list: seq<Record>, flagged: set<Record>, wanted: bool): seq<Record> {
    if list == [] then []
    else
      var last := list[|list| - 1];
      Marked(list[..|list| - 1], flagged, wanted) + (if (last in flagged) == wanted then [last] else [])
  }

  class RecordList {
    var records: seq<Record>
    var freed: seq<Record>

    // The marked records are taken off the list and freed in list order; the others stay.
    method GarbageCollectorImpl(canBeGarbageCollected: set<Record>)
      modifies this
      ensures records == Marked(old(records), canBeGarbageCollected, false)
      ensures freed == old(freed) + Marked(old(records), canBeGarbageCollected, true)
    {
      hide Marked;
      ghost var all := records;
      ghost var done := 0;
      ghost var kept: seq<Record>, removed: seq<Record> := [], [];
      var item := 0;
      MarkedOfNone(all, canBeGarbageCollected);
      while item < |records|
        invariant done <= |all| && item == |kept|
        invariant kept == Marked(all[..done], canBeGarbageCollected, false)
        invariant removed == Marked(all[..done], canBeGarbageCollected, true)
        invariant records == kept + all[done..]
        invariant freed == old(freed) + removed
        decreases |records| - item
      {
        var threadInfo := records[item];
        AtSeam(kept, all, done);
        MarkedOfOneMore(all, done, canBeGarbageCollected);
        if threadInfo in canBeGarbageCollected {
          records := records[..item] + records[item + 1..];
          freed := freed + [threadInfo];
          removed := removed + [threadInfo];
        } else {
          item := item + 1;
          kept := kept + [threadInfo];
        }
        done := done + 1;
      }
      assert all[..done] == all;
    }
  }

  lemma MarkedOfNone(list: seq<Record>, flagged: set<Record>)
    ensures Marked(list[..0], flagged, false) == [] && Marked(list[..0], flagged, true) == []
    ensures [] + list[0..] == list
  {
  }

  lemma MarkedOfOneMore(list: seq<Record>, done: nat, flagged: set<Record>)
    requires done < |list|
    ensures var r := list[done];
            && Marked(list[..done + 1], flagged, false)
               == Marked(list[..done], flagged, false) + (if r in flagged then [] else [r])
            && Marked(list[..done + 1], flagged, true)
               == Marked(list[..done], flagged, true) + (if r in flagged then [r] else [])
  {
    assert list[..done + 1][..done] == list[..done];
  }

  // A collection loses no record: each listed one is freed if it is marked and kept if it is not.
  lemma {:induction false} CollectionSplits(list: seq<Record>, flagged: set<Record>, r: Record)
    ensures r in Marked(list, flagged, true) <==> r in list && r in flagged
    ensures r in Marked(list, flagged, false) <==> r in list && r !in flagged
  {
    if list != [] {
      CollectionSplits(list[..|list| - 1], flagged, r);
      assert list == list[..|list| - 1] + [list[|list| - 1]];
    }
  }

  // ----- The life of a record -----

  function At(s: State, who: Who): Option<Pc> {
    if who in s.threads then Some(s.threads[who]) else None
  }

  // A record is in hand between its removal from the list and its release.
  predicate InHandOf(pc: Option<Pc>, r: Record) {
    pc.Some? && (pc.value.GarbageUnlock? || pc.value.GarbageFree?) && pc.value.record == r
  }

  datatype Life = Life(starter: Option<Pc>, upload: Option<Pc>, listed: bool, flagged: bool, started: bool,
                       freed: bool, byWorker: bool, byDestruction: bool)

  function LifeOf(s: State, r: Record): Life {
    Life(At(s, Starter(r)), At(s, Upload(r)), r in s.list, r in s.flagged, r in s.started, r in s.freed,
         InHandOf(At(s, Collector(false)), r), InHandOf(At(s, Collector(true)), r))
  }

  // Not given to a thread: listed or not, but untouched otherwise.
  predicate Unstarted(l: Life, listed: bool) {
    l.upload.None? && l.listed == listed && !l.flagged && !l.started && !l.freed && !l.byWorker && !l.byDestruction
  }

  // Given to a thread: it marks the record at the end; the record is listed, in one hand or freed,
  // and off the list only after the thread has ended.
  predicate WithThread(l: Life) {
    && l.started && l.upload.Some?
    && l.flagged == (l.upload.value.MarkUnlock? || l.upload.value.Exiting? || l.upload.value.Exited?)
    && !(l.byWorker && l.byDestruction)
    && (if l.listed then !l.freed && !l.byWorker && !l.byDestruction
        else l.upload == Some(Exited) && l.freed == !(l.byWorker || l.byDestruction))
  }

  // A call that returned without a thread has freed the record itself.
  predicate GivenUp(l: Life) {
    l.freed && Unstarted(l.(freed := false), false)
  }

  predicate LifeOk(l: Life) {
    match l.starter
    case None => Unstarted(l, false)
    case Some(StartLock(_)) => Unstarted(l, false)
    case Some(StartAdd(_)) => Unstarted(l, false)
    case Some(StartCreate(_)) => Unstarted(l, true)
    case Some(StartRemove(_)) => Unstarted(l, true)
    case Some(StartUnlock(_, ok)) => if ok then WithThread(l) else Unstarted(l, false)
    case Some(StartFree(_)) => Unstarted(l, false)
    case Some(_) => WithThread(l) || GivenUp(l)
  }

  ghost predicate Lives(s: State) {
    forall r :: LifeOk(LifeOf(s, r))
  }

  // ----- The list while it is collected -----

  ghost predicate NoRepeats(list: seq<Record>) {
    forall i, j :: 0 <= i < j < |list| ==> list[i] != list[j]
  }

  lemma WithoutOne(list: seq<Record>, i: nat)
    requires NoRepeats(list) && i < |list|
    ensures NoRepeats(Without(list, i))
    ensures forall r :: r in Without(list, i) <==> r in list && r != list[i]
  {
    var rest := Without(list, i);
    forall r | r in list && r != list[i] ensures r in rest {
      var j :| 0 <= j < |list| && list[j] == r;
      assert rest[if j < i then j else j - 1] == r;
    }
  }

  predicate OnEntry(pc: Pc) {
    pc.GarbageWant? || pc.GarbageTest? || pc.GarbageSkip? || pc.GarbageJoin? || pc.GarbageRemove?
  }

  // A call that has listed its record finds it still listed until it lets go of the lock, although
  // the thread may have marked it and ended by then.
  predicate OnListed(pc: Pc) {
    pc.StartCreate? || pc.StartRemove? || (pc.StartUnlock? && pc.ok)
  }

  // A collector stands on a listed record; it joins and removes only a marked one, and removes it
  // only when its thread has ended.
  predicate CollectOk(s: State, pc: Pc) {
    && (OnListed(pc) ==> pc.record in s.list)
    && (OnEntry(pc) ==> pc.at < |s.list| && s.list[pc.at] == pc.record)
    && (pc.GarbageJoin? || pc.GarbageRemove? ==> pc.record in s.flagged)
    && (pc.GarbageRemove? ==> HasExited(s, pc.record))
  }

  ghost predicate Collecting(s: State) {
    && NoRepeats(s.list) && NoRepeats(s.freed)
    && forall who :: who in s.threads ==> CollectOk(s, s.threads[who])
  }

  // Ended threads stay ended and marks stay, whatever steps.
  lemma StepIsMonotone(s: State, x: Choice, r: Record)
    requires Enabled(s, x)
    ensures r in s.flagged ==> r in Step(s, x).flagged
    ensures HasExited(s, r) && Cast(s) && Lives(s) ==> HasExited(Step(s, x), r)
  {
    hide NextPc, Wants, InRole;
    if HasExited(s, r) && Cast(s) && Lives(s) && x.who in s.threads && s.threads[x.who].StartCreate? {
      StarterAtCreate(s, x.who);
    }
  }

  lemma OnlyOwnersTouchTheList(s: State, pc: Pc)
    ensures !Holds(pc, ClientLock) ==> NextList(s, pc) == s.list
  {
  }

  lemma OneOwner(s: State, who: Who, other: Who, lock: Lock)
    requires Locked(s) && who in s.threads && other in s.threads && who != other && Holds(s.threads[other], lock)
    ensures !Holds(s.threads[who], lock)
  {
    hide Holds;
    assert lock in s.owners && s.owners[lock] == other;
  }

  lemma CollectAfterStep(s: State, x: Choice)
    requires Enabled(s, x) && x.who in s.threads && CollectOk(s, s.threads[x.who])
    ensures CollectOk(Step(s, x), NextPc(s, s.threads[x.who], x))
  {
  }

  lemma OutsidersDoNotCollect(s: State, pc: Pc)
    ensures !Holds(pc, ClientLock) ==> CollectOk(s, pc)
  {
  }

  // What a position claims survives the step of a thread that leaves the list alone.
  lemma CollectSurvives(s: State, x: Choice, pc: Pc)
    requires Enabled(s, x) && Cast(s) && Lives(s) && CollectOk(s, pc) && Step(s, x).list == s.list
    ensures CollectOk(Step(s, x), pc)
  {
    hide NextPc, Wants, InRole, LifeOk, LifeOf, HasExited, Enabled;
    if pc.GarbageJoin? || pc.GarbageRemove? {
      StepIsMonotone(s, x, pc.record);
    }
  }

  lemma FirstPositionsClaimNothing(s: State, r: Record)
    ensures CollectOk(s, StartLock(r)) && CollectOk(s, Uploading(r))
  {
  }

  lemma StepKeepsClaims(s: State, x: Choice, who: Who)
    requires Locked(s) && Cast(s) && Lives(s) && Collecting(s) && Enabled(s, x)
    requires who in Step(s, x).threads
    ensures CollectOk(Step(s, x), Step(s, x).threads[who])
  {
    hide NextPc, Wants, InRole, LifeOk, LifeOf, CollectOk, Holds, NextList, Locked, NoRepeats, Lives;
    var after := Step(s, x);
    if who !in s.threads {
      FirstPositionsClaimNothing(after, who.record);
    } else if x.who !in s.threads {
      CollectSurvives(s, x, s.threads[who]);
    } else if who == x.who {
      Replaced(s, x);
      CollectAfterStep(s, x);
    } else {
      NotReplaced(s, x, who);
      OutsidersDoNotCollect(after, s.threads[who]);
      if Holds(s.threads[who], ClientLock) {
        OneOwner(s, x.who, who, ClientLock);
        OnlyOwnersTouchTheList(s, s.threads[x.who]);
        CollectSurvives(s, x, s.threads[who]);
      }
    }
  }

  lemma Replaced(s: State, x: Choice)
    requires Enabled(s, x) && Cast(s) && Lives(s) && x.who in s.threads
    ensures Step(s, x).threads[x.who] == NextPc(s, s.threads[x.who], x)
  {
    hide NextPc, Wants, InRole, LifeOk, LifeOf;
    if s.threads[x.who].StartCreate? {
      StarterAtCreate(s, x.who);
    }
  }

  lemma NotReplaced(s: State, x: Choice, who: Who)
    requires Enabled(s, x) && Cast(s) && Lives(s) && who in s.threads && x.who in s.threads && who != x.who
    ensures Step(s, x).threads[who] == s.threads[who]
  {
    hide NextPc, Wants, InRole, LifeOk, LifeOf;
    if s.threads[x.who].StartCreate? {
      StarterAtCreate(s, x.who);
    }
  }

  // ----- The life of a record, step by step -----

  lemma UnlistedLife(s: State, x: Choice, r: Record)
    requires Enabled(s, x) && x.who == Starter(r) && x.who in s.threads && s.threads[x.who] == StartRemove(r)
    requires NoRepeats(s.list) && LifeOk(LifeOf(s, r))
    ensures LifeOk(LifeOf(Step(s, x), r))
  {
    hide Holds, Releases, Wants, Collects, WithThread, GivenUp;
    WithoutOne(s.list, Position(s.list, r));
  }

  lemma StarterLife(s: State, x: Choice, r: Record)
    requires Enabled(s, x) && x.who == Starter(r) && Cast(s) && Collecting(s) && LifeOk(LifeOf(s, r))
    ensures LifeOk(LifeOf(Step(s, x), r))
  {
    hide Holds, CollectOk, Releases, Wants, Collects;
    if x.who in s.threads {
      assert InRole(x.who, s.threads[x.who]);
      if s.threads[x.who].StartRemove? {
        UnlistedLife(s, x, r);
      } else if s.threads[x.who].StartFree? {
        GivenUpLife(LifeOf(s, r));
      }
    }
  }

  lemma GivenUpLife(l: Life)
    requires Unstarted(l, false)
    ensures LifeOk(l.(starter := Some(Returned), freed := true))
  {
    assert l.(freed := false) == l;
  }

  lemma UploadLife(s: State, x: Choice, r: Record)
    requires Enabled(s, x) && x.who == Upload(r) && Cast(s) && LifeOk(LifeOf(s, r))
    ensures LifeOk(LifeOf(Step(s, x), r))
  {
    hide Holds, CollectOk, Releases, Wants, Collects;
    assert InRole(x.who, s.threads[x.who]);
  }

  predicate Touches(pc: Pc, r: Record) {
    (OnEntry(pc) || pc.GarbageUnlock? || pc.GarbageFree?) && pc.record == r
  }

  lemma RemovalLife(s: State, x: Choice, r: Record)
    requires Enabled(s, x) && x.who.Collector? && x.who in s.threads && s.threads[x.who].GarbageRemove?
    requires s.threads[x.who].record == r && Collecting(s) && LifeOk(LifeOf(s, r))
    ensures LifeOk(LifeOf(Step(s, x), r))
  {
    hide Holds, Releases, Wants, Collects, GivenUp;
    var pc := s.threads[x.who];
    assert CollectOk(s, pc);
    WithoutOne(s.list, pc.at);
    RemovedLife(LifeOf(s, r), x.who.destroys);
    assert LifeOf(Step(s, x), r)
        == LifeOf(s, r).(listed := false, byWorker := !x.who.destroys || LifeOf(s, r).byWorker,
                         byDestruction := x.who.destroys || LifeOf(s, r).byDestruction);
  }

  lemma RemovedLife(l: Life, destroys: bool)
    requires LifeOk(l) && l.listed && l.flagged && l.upload == Some(Exited)
    ensures LifeOk(l.(listed := false, byWorker := !destroys || l.byWorker, byDestruction := destroys || l.byDestruction))
  {
  }

  lemma ReleaseLife(s: State, x: Choice, r: Record)
    requires Enabled(s, x) && x.who.Collector? && x.who in s.threads && s.threads[x.who].GarbageFree?
    requires s.threads[x.who].record == r && LifeOk(LifeOf(s, r))
    ensures LifeOk(LifeOf(Step(s, x), r))
  {
    hide Holds, Releases, Wants, Collects, GivenUp;
    var l := LifeOf(s, r);
    assert InHandOf(At(s, x.who), r);
    ReleasedLife(l, x.who.destroys);
    assert LifeOf(Step(s, x), r)
        == l.(freed := true, byWorker := x.who.destroys && l.byWorker, byDestruction := !x.who.destroys && l.byDestruction);
  }

  lemma ReleasedLife(l: Life, destroys: bool)
    requires LifeOk(l) && (if destroys then l.byDestruction else l.byWorker)
    ensures LifeOk(l.(freed := true, byWorker := destroys && l.byWorker, byDestruction := !destroys && l.byDestruction))
  {
  }

  // The other steps of a collector leave every life as it is.
  lemma CollectorPassesBy(s: State, x: Choice, r: Record)
    requires Enabled(s, x) && x.who.Collector? && x.who in s.threads && InRole(x.who, s.threads[x.who])
    requires !s.threads[x.who].GarbageRemove? && !s.threads[x.who].GarbageFree?
    ensures LifeOf(Step(s, x), r) == LifeOf(s, r)
  {
    hide Holds, Releases, Wants, NextPc, NextList, InRole, InHandOf;
    HandsUnmoved(s, x, s.threads[x.who], r);
  }

  lemma HandsUnmoved(s: State, x: Choice, pc: Pc, r: Record)
    requires x.who.Collector? && InRole(x.who, pc) && !pc.GarbageRemove? && !pc.GarbageFree?
    ensures InHandOf(Some(NextPc(s, pc, x)), r) == InHandOf(Some(pc), r) && NextList(s, pc) == s.list
    ensures !pc.StartCreate? && !pc.MarkIn? && !pc.StartFree?
  {
  }

  lemma CollectorLife(s: State, x: Choice, r: Record)
    requires Enabled(s, x) && x.who.Collector? && x.who in s.threads && Touches(s.threads[x.who], r)
    requires Cast(s) && Collecting(s) && LifeOk(LifeOf(s, r))
    ensures LifeOk(LifeOf(Step(s, x), r))
  {
    hide LifeOk, LifeOf, Step, Enabled, InRole;
    if s.threads[x.who].GarbageRemove? {
      RemovalLife(s, x, r);
    } else if s.threads[x.who].GarbageFree? {
      ReleaseLife(s, x, r);
    } else {
      CollectorPassesBy(s, x, r);
    }
  }

  // A step concerns one record at most.
  lemma OtherCollectorLife(s: State, x: Choice, r: Record)
    requires Enabled(s, x) && Cast(s) && Collecting(s)
    requires x.who.Collector? && x.who in s.threads && !Touches(s.threads[x.who], r)
    ensures LifeOf(Step(s, x), r) == LifeOf(s, r)
  {
    hide Holds, Releases, Wants, Ended, Collects, LifeOk, OnListed;
    var pc := s.threads[x.who];
    assert InRole(x.who, pc) && CollectOk(s, pc);
    if pc.GarbageRemove? {
      WithoutOne(s.list, pc.at);
    } else if !pc.GarbageFree? {
      CollectorPassesBy(s, x, r);
    }
  }

  lemma OtherLife(s: State, x: Choice, r: Record)
    requires Enabled(s, x) && Cast(s) && Collecting(s) && !x.who.Collector?
    requires x.who != Starter(r) && x.who != Upload(r)
    ensures LifeOf(Step(s, x), r) == LifeOf(s, r)
  {
    hide Holds, Releases, Wants, Collects, Ended;
    if x.who in s.threads {
      var pc := s.threads[x.who];
      assert InRole(x.who, pc);
      if pc.StartRemove? && Position(s.list, pc.record) < |s.list| {
        WithoutOne(s.list, Position(s.list, pc.record));
      }
    }
  }

  lemma StepKeepsLives(s: State, x: Choice)
    requires Cast(s) && Lives(s) && Collecting(s) && Enabled(s, x)
    ensures Lives(Step(s, x))
  {
    hide Cast, Collecting, Enabled, Step, LifeOk, LifeOf, Touches;
    NewcomersAreStarters(s, x);
    forall r ensures LifeOk(LifeOf(Step(s, x), r)) {
      assert LifeOk(LifeOf(s, r));
      if x.who == Starter(r) {
        StarterLife(s, x, r);
      } else if x.who == Upload(r) {
        UploadLife(s, x, r);
      } else if x.who.Collector? && Touches(s.threads[x.who], r) {
        CollectorLife(s, x, r);
      } else if x.who.Collector? {
        OtherCollectorLife(s, x, r);
      } else {
        OtherLife(s, x, r);
      }
    }
  }

  lemma NewcomersAreStarters(s: State, x: Choice)
    requires Enabled(s, x)
    ensures x.who in s.threads || x.who.Starter?
  {
  }

  // A record about to be listed is not on the list; one about to be freed is not freed.
  lemma NewToTheList(s: State, who: Who)
    requires Cast(s) && Lives(s) && who in s.threads
    ensures s.threads[who].StartAdd? ==> s.threads[who].record !in s.list
    ensures s.threads[who].StartFree? || s.threads[who].GarbageFree? ==> s.threads[who].record !in s.freed
  {
    var pc := s.threads[who];
    assert InRole(who, pc);
    if pc.StartAdd? || pc.StartFree? {
      assert LifeOk(LifeOf(s, pc.record)) && LifeOf(s, pc.record).starter == Some(pc);
    } else if pc.GarbageFree? {
      assert LifeOk(LifeOf(s, pc.record)) && InHandOf(At(s, who), pc.record);
    }
  }

  lemma StepKeepsDistinct(s: State, x: Choice)
    requires Cast(s) && Lives(s) && Collecting(s) && Enabled(s, x)
    ensures NoRepeats(Step(s, x).list) && NoRepeats(Step(s, x).freed)
  {
    hide Holds, Releases, Wants, Collects, Ended, NextPc, LifeOk, LifeOf, InRole;
    if x.who in s.threads {
      var pc := s.threads[x.who];
      assert CollectOk(s, pc);
      NewToTheList(s, x.who);
      if pc.StartRemove? && Position(s.list, pc.record) < |s.list| {
        WithoutOne(s.list, Position(s.list, pc.record));
      } else if pc.GarbageRemove? {
        WithoutOne(s.list, pc.at);
      }
    }
  }

  // ----- Every reachable state -----

  ghost predicate Inv(s: State) {
    Locked(s) && Cast(s) && Lives(s) && Collecting(s)
  }

  lemma StepKeepsInv(s: State, x: Choice)
    requires Inv(s) && Enabled(s, x)
    ensures Inv(Step(s, x))
  {
    hide Locked, Cast, Lives, Enabled, Step, CollectOk, NoRepeats;
    StepKeepsLocked(s, x);
    StepKeepsCast(s, x);
    StepKeepsLives(s, x);
    StepKeepsDistinct(s, x);
    forall who | who in Step(s, x).threads ensures CollectOk(Step(s, x), Step(s, x).threads[who]) {
      StepKeepsClaims(s, x, who);
    }
  }

  lemma InitialIsSafe(s: State)
    requires Initial(s)
    ensures Inv(s)
  {
  }

  lemma {:induction false} RunKeepsInv(s: State, choices: seq<Choice>, t: State)
    requires Inv(s) && IsRun(s, choices, t)
    ensures Inv(t)
    decreases |choices|
  {
    hide Inv, Step, Enabled;
    if choices != [] {
      StepKeepsInv(s, choices[0]);
      RunKeepsInv(Step(s, choices[0]), choices[1..], t);
    }
  }

  lemma ReachableIsSafe(initial: State, choices: seq<Choice>, s: State)
    requires Initial(initial) && IsRun(initial, choices, s)
    ensures Inv(s)
  {
    hide Inv, Initial;
    InitialIsSafe(initial);
    RunKeepsInv(initial, choices, s);
  }

  // ----- Freed once, and only when nobody uses it -----

  // No record is freed twice, and a record whose thread was started is freed only after that thread
  // has marked it and has ended.
  lemma FreedOnceAfterTheThread(initial: State, choices: seq<Choice>, s: State, r: Record)
    requires Initial(initial) && IsRun(initial, choices, s) && r in s.freed
    ensures multiset(s.freed)[r] == 1
    ensures r in s.started ==> r in s.flagged && HasExited(s, r)
  {
    hide Locked, Cast, NoRepeats;
    ReachableIsSafe(initial, choices, s);
    assert LifeOk(LifeOf(s, r));
    OccursOnce(s.freed, r);
  }

  lemma OccursOnce(list: seq<Record>, r: Record)
    requires NoRepeats(list) && r in list
    ensures multiset(list)[r] == 1
  {
    var i :| 0 <= i < |list| && list[i] == r;
    DistinctOnce(list, i);
  }

  // A thread at a position that uses a record uses one that has not been freed.
  predicate Uses(pc: Pc) {
    || pc.StartLock? || pc.StartAdd? || pc.StartCreate? || pc.StartRemove? || pc.StartUnlock? || pc.StartFree?
    || pc.Uploading? || pc.MarkLock? || pc.MarkIn? || pc.MarkUnlock?
    || OnEntry(pc) || pc.GarbageUnlock? || pc.GarbageFree?
  }

  lemma UsersFindTheirRecord(initial: State, choices: seq<Choice>, s: State, who: Who)
    requires Initial(initial) && IsRun(initial, choices, s) && who in s.threads && Uses(s.threads[who])
    ensures s.threads[who].record !in s.freed
  {
    hide Locked, NoRepeats, HasExited, LifeOk, LifeOf, InRole;
    ReachableIsSafe(initial, choices, s);
    var pc := s.threads[who];
    assert InRole(who, pc) && CollectOk(s, pc);
    assert LifeOk(LifeOf(s, pc.record));
    if OnEntry(pc) || OnListed(pc) {
      assert pc.record in s.list;
      ListedIsNotFreed(s, pc.record);
    } else {
      UserIsNotFreed(s, who, pc);
    }
  }

  lemma ListedIsNotFreed(s: State, r: Record)
    requires LifeOk(LifeOf(s, r)) && r in s.list
    ensures r !in s.freed
  {
  }

  lemma UserIsNotFreed(s: State, who: Who, pc: Pc)
    requires who in s.threads && s.threads[who] == pc && InRole(who, pc) && Uses(pc) && !OnEntry(pc) && !OnListed(pc)
    requires LifeOk(LifeOf(s, pc.record))
    ensures pc.record !in s.freed
  {
    match who
    case Starter(r) => assert LifeOf(s, r).starter == Some(pc);
    case Upload(r) => assert LifeOf(s, r).upload == Some(pc);
    case Collector(_) => assert InHandOf(At(s, who), pc.record);
  }

  // When the destruction's loop is over, every started record has been freed.
  lemma DestructionFreesAll(initial: State, choices: seq<Choice>, s: State, x: Choice, r: Record)
    requires Initial(initial) && IsRun(initial, choices, s) && r in s.started
    requires Enabled(s, x) && x.who == Collector(true) && x.who in s.threads
    requires s.threads[x.who].CollectAt? && Step(s, x).threads[x.who] == CollectUnlock
    ensures r in s.freed && s.list == []
  {
    hide NoRepeats, InRole, CollectOk, NextOwners, Releases;
    ReachableIsSafe(initial, choices, s);
    assert LifeOk(LifeOf(s, r));
    assert Holds(s.threads[x.who], ClientLock);
    if InHandOf(At(s, Collector(false)), r) {
      assert Holds(s.threads[Collector(false)], ClientLock);
      OneOwner(s, x.who, Collector(false), ClientLock);
    }
  }

  // ----- Collecting does not block -----

  // The thread a collector joins has nothing left to do but exit.
  lemma JoinedThreadExits(s: State, who: Who)
    requires Inv(s) && who in s.threads && s.threads[who].GarbageJoin?
    ensures var r := s.threads[who].record;
            Upload(r) in s.threads && (s.threads[Upload(r)].Exiting? || s.threads[Upload(r)].Exited?)
  {
    hide NoRepeats, HasExited;
    var pc := s.threads[who];
    var r := pc.record;
    assert InRole(who, pc) && CollectOk(s, pc) && LifeOk(LifeOf(s, r));
    assert Holds(pc, GarbageLock(r));
    if s.threads[Upload(r)].MarkUnlock? {
      assert Holds(s.threads[Upload(r)], GarbageLock(r));
      OneOwner(s, who, Upload(r), GarbageLock(r));
    }
  }

  // A thread waits for the owner of the lock it wants, or for the thread it joins.
  ghost predicate WaitsFor(s: State, who: Who, other: Who) {
    && who in s.threads && other in s.threads
    && ((Wants(s.threads[who]).Some? && Wants(s.threads[who]).value in s.owners
         && s.owners[Wants(s.threads[who]).value] == other)
        || (s.threads[who].GarbageJoin? && other == Upload(s.threads[who].record) && s.threads[other] != Exited))
  }

  function Rank(pc: Pc): (n: nat)
    ensures n <= 3
  {
    if pc.StartLock? || pc.CollectLock? then 0
    else if pc.GarbageWant? || pc.GarbageJoin? then 1
    else if pc.MarkLock? then 2
    else 3
  }

  lemma OwnersOfGarbage(s: State, who: Who, r: Record)
    requires Inv(s) && who in s.threads && Holds(s.threads[who], GarbageLock(r))
    ensures s.threads[who].GarbageJoin? ==>
      Upload(r) in s.threads && !s.threads[Upload(r)].MarkLock? && Holds(s.threads[who], ClientLock)
    ensures !s.threads[who].GarbageJoin? ==> Rank(s.threads[who]) == 3
  {
    hide Locked, Cast, Lives, Collecting;
    if s.threads[who].GarbageJoin? {
      JoinedThreadExits(s, who);
    }
  }

  // Every thread waited for is closer to moving on than the one that waits.
  lemma WaitingClimbs(s: State, who: Who, other: Who)
    requires Inv(s) && WaitsFor(s, who, other)
    ensures Rank(s.threads[who]) < Rank(s.threads[other]) && !Ended(s.threads[other]) && !s.threads[other].Outside?
  {
    hide Lives, Collecting, Cast;
    var pc := s.threads[who];
    if pc.GarbageJoin? {
      JoinedThreadExits(s, who);
    } else {
      assert Holds(s.threads[other], Wants(pc).value);
      if pc.GarbageWant? {
        OwnersOfGarbage(s, other, pc.record);
        assert Holds(pc, ClientLock);
        if other != who {
          OneOwner(s, other, who, ClientLock);
        }
      } else if pc.MarkLock? {
        assert InRole(who, pc) by { RoleOf(s, who); }
        OwnersOfGarbage(s, other, pc.record);
      }
    }
  }

  lemma RoleOf(s: State, who: Who)
    requires Cast(s) && who in s.threads
    ensures InRole(who, s.threads[who])
  {
  }

  lemma StepsUnlessWaiting(s: State, who: Who)
    requires Inv(s) && who in s.threads && !Ended(s.threads[who])
    ensures Enabled(s, Choice(who, false)) || (exists other :: WaitsFor(s, who, other))
  {
    hide Lives, Collecting, Cast, Holds;
    var pc := s.threads[who];
    if Wants(pc).Some? && Wants(pc).value in s.owners {
      assert WaitsFor(s, who, s.owners[Wants(pc).value]);
    } else if pc.GarbageJoin? {
      JoinedThreadExits(s, who);
      assert HasExited(s, pc.record) || WaitsFor(s, who, Upload(pc.record));
    }
  }

  // Each thread of a chain waits for the next.
  ghost predicate IsWaitChain(s: State, chain: seq<Who>) {
    forall i, j :: 0 <= i && j == i + 1 && j < |chain| ==> WaitsFor(s, chain[i], chain[j])
  }

  // A thread that is under way can take a step itself, or waits, perhaps through others, for one that
  // can: the two kinds of lock and the join never form a cycle.
  lemma {:induction false} SomeThreadSteps(s: State, who: Who) returns (chain: seq<Who>)
    requires Inv(s) && who in s.threads && !Ended(s.threads[who])
    ensures chain != [] && chain[0] == who && IsWaitChain(s, chain)
    ensures Enabled(s, Choice(chain[|chain| - 1], false))
    decreases 3 - Rank(s.threads[who])
  {
    hide Inv, Rank, WaitsFor, Enabled, Ended;
    if Enabled(s, Choice(who, false)) {
      chain := [who];
    } else {
      StepsUnlessWaiting(s, who);
      var next :| WaitsFor(s, who, next);
      Waiters(s, who, next);
      WaitingClimbs(s, who, next);
      var rest := SomeThreadSteps(s, next);
      chain := [who] + rest;
      forall i, j | 0 <= i && j == i + 1 && j < |chain| ensures WaitsFor(s, chain[i], chain[j]) {
        assert i > 0 ==> chain[i] == rest[i - 1] && chain[j] == rest[j - 1];
      }
    }
  }

  lemma Waiters(s: State, who: Who, other: Who)
    requires WaitsFor(s, who, other)
    ensures who in s.threads && other in s.threads
  {
  }

  lemma NeverStuck(initial: State, choices: seq<Choice>, s: State, who: Who) returns (chain: seq<Who>)
    requires Initial(initial) && IsRun(initial, choices, s)
    requires who in s.threads && !Ended(s.threads[who])
    ensures chain != [] && chain[0] == who && IsWaitChain(s, chain)
    ensures Enabled(s, Choice(chain[|chain| - 1], false))
  {
    hide Inv, Initial, Enabled, Ended, WaitsFor;
    ReachableIsSafe(initial, choices, s);
    chain := SomeThreadSteps(s, who);
  }
}
