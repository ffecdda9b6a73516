/** The destruction of a client can always collect all upload threads and finish. */
module UploadDestruction {
  import opened Options
  import opened UploadThreads

  const DESTRUCTION: Who := Collector(true)

  // ----- How much is left to do -----

  // Steps of an upload thread until it has ended.
  function ToEnd(threads: map<Who, Pc>, r: Record): nat {
    if Upload(r) !in threads then 0
    else
      match threads[Upload(r)]
      case Uploading(_) => 5
      case MarkLock(_) => 4
      case MarkIn(_) => 3
      case MarkUnlock(_) => 2
      case Exiting(_) => 1
      case _ => 0
  }

  // The same for all the listed records.
  function Left(threads: map<Who, Pc>, list: seq<Record>): nat {
    if list == [] then 0 else Left(threads, list[..|list| - 1]) + ToEnd(threads, list[|list| - 1])
  }

  lemma {:induction false} LeftIsSame(threads: map<Who, Pc>, after: map<Who, Pc>, list: seq<Record>)
    requires forall r :: r in list ==> ToEnd(after, r) == ToEnd(threads, r)
    ensures Left(after, list) == Left(threads, list)
  {
    if list != [] {
      assert list[|list| - 1] in list;
      LeftIsSame(threads, after, list[..|list| - 1]);
    }
  }

  lemma {:induction false} LeftGrowsLess(threads: map<Who, Pc>, after: map<Who, Pc>, list: seq<Record>, r: Record)
    requires forall q :: q in list ==> ToEnd(after, q) <= ToEnd(threads, q)
    requires r in list ==> ToEnd(after, r) < ToEnd(threads, r)
    ensures Left(after, list) <= Left(threads, list)
    ensures r in list ==> Left(after, list) < Left(threads, list)
  {
    if list != [] {
      var earlier, last := list[..|list| - 1], list[|list| - 1];
      assert list == earlier + [last];
      assert last in list;
      LeftGrowsLess(threads, after, earlier, r);
    }
  }

  lemma {:induction false} LeftWithout(threads: map<Who, Pc>, list: seq<Record>, i: nat)
    requires i < |list|
    ensures Left(threads, list[..i] + list[i + 1..]) <= Left(threads, list)
  {
    var earlier, last := list[..|list| - 1], list[|list| - 1];
    if i == |list| - 1 {
      assert list[..i] + list[i + 1..] == earlier;
    } else {
      LeftWithout(threads, earlier, i);
      var rest := list[..i] + list[i + 1..];
      assert rest[..|rest| - 1] == earlier[..i] + earlier[i + 1..] && rest[|rest| - 1] == last;
    }
  }

  lemma LeftAppended(threads: map<Who, Pc>, list: seq<Record>, r: Record)
    ensures Left(threads, list + [r]) == Left(threads, list) + ToEnd(threads, r)
  {
    assert (list + [r])[..|list|] == list;
  }

  lemma {:induction false} SomeIsLeft(threads: map<Who, Pc>, list: seq<Record>) returns (r: Record)
    requires Left(threads, list) > 0
    ensures r in list && ToEnd(threads, r) > 0
  {
    var last := list[|list| - 1];
    if ToEnd(threads, last) > 0 {
      r := last;
    } else {
      r := SomeIsLeft(threads, list[..|list| - 1]);
    }
  }

  lemma {:induction false} NoneIsLeft(threads: map<Who, Pc>, list: seq<Record>, r: Record)
    requires Left(threads, list) == 0 && r in list
    ensures ToEnd(threads, r) == 0
  {
    if r != list[|list| - 1] {
      NoneIsLeft(threads, list[..|list| - 1], r);
    }
  }

  // The position of the destruction, towards its end.
  function Phase(pc: Pc): nat {
    if pc.Outside? then 3 else if pc.CollectLock? then 2 else if Collects(pc) then 1 else 0
  }

  function Beyond(size: nat, at: nat): nat {
    if at < size then size - at else 0
  }

  // Steps of the owner of the client's lock until it lets go, when it creates no thread.
  function OwnerSteps(size: nat, pc: Pc): nat {
    match pc
    case StartAdd(_) => 4
    case StartCreate(_) => 3
    case StartRemove(_) => 2
    case StartUnlock(_, _) => 1
    case CollectUnlock => 1
    case CollectAt(i) => 10 * Beyond(size, i) + 8
    case GarbageWant(i, _) => 10 * Beyond(size, i) + 7
    case GarbageTest(i, _) => 10 * Beyond(size, i) + 6
    case GarbageJoin(i, _) => 10 * Beyond(size, i) + 5
    case GarbageSkip(i, _) => 10 * Beyond(size, i) + 5
    case GarbageRemove(i, _) => 10 * Beyond(size, i) + 4
    case GarbageFree(i, _) => 10 * Beyond(size, i) + 9
    case GarbageUnlock(i, _) => 10 * Beyond(size, i) + 10
    case _ => 0
  }

  function OwnerLeft(s: State): nat {
    if ClientLock in s.owners && s.owners[ClientLock] in s.threads
    then OwnerSteps(|s.list|, s.threads[s.owners[ClientLock]]) else 0
  }

  // Steps of the destruction until it lets go of the record it stands on.
  function ToRelease(pc: Pc): nat {
    if pc.GarbageTest? then 2 else if pc.GarbageSkip? then 1 else 0
  }

  // Steps of the destruction until it has removed one more record, when all threads have ended.
  function ToRemove(size: nat, pc: Pc): nat {
    match pc
    case CollectUnlock => 1
    case GarbageRemove(_, _) => 1
    case GarbageJoin(_, _) => 2
    case GarbageTest(_, _) => 3
    case GarbageWant(_, _) => 4
    case CollectAt(i) => if size == 0 || i < size then 5 else 6
    case GarbageSkip(_, _) => 7
    case GarbageFree(_, _) => 7
    case GarbageUnlock(_, _) => 8
    case _ => 0
  }

  function Third(s: State): nat
    requires DESTRUCTION in s.threads
  {
    if Phase(s.threads[DESTRUCTION]) == 2 then OwnerLeft(s)
    else if Left(s.threads, s.list) > 0 then 0
    else |s.list|
  }

  function Fourth(s: State): nat
    requires DESTRUCTION in s.threads
  {
    if Phase(s.threads[DESTRUCTION]) != 1 then 0
    else if Left(s.threads, s.list) > 0 then ToRelease(s.threads[DESTRUCTION])
    else ToRemove(|s.list|, s.threads[DESTRUCTION])
  }

  ghost predicate Nearer(s: State, t: State)
    requires DESTRUCTION in s.threads
  {
    DESTRUCTION in t.threads &&
    var p, q := Phase(s.threads[DESTRUCTION]), Phase(t.threads[DESTRUCTION]);
    var m, n := Left(s.threads, s.list), Left(t.threads, t.list);
    q < p || (q == p && (n < m || (n == m && (Third(t) < Third(s) || (Third(t) == Third(s) && Fourth(t) < Fourth(s))))))
  }

  // ----- Steps that bring the end nearer -----

  function Plain(who: Who): Choice {
    Choice(who, false)
  }

  // A step of an upload thread of a listed record.
  lemma UploadStepIsNearer(s: State, r: Record)
    requires DESTRUCTION in s.threads && InRole(DESTRUCTION, s.threads[DESTRUCTION])
    requires Upload(r) in s.threads && InRole(Upload(r), s.threads[Upload(r)])
    requires r in s.list && Enabled(s, Plain(Upload(r)))
    ensures Nearer(s, Step(s, Plain(Upload(r))))
  {
    hide Left, Third, Fourth;
    var after := Step(s, Plain(Upload(r)));
    LeftGrowsLess(s.threads, after.threads, s.list, r);
  }

  // The list and the upload threads after a step of another thread that creates none.
  lemma OthersLeaveLeft(s: State, who: Who)
    requires who in s.threads && !who.Upload? && InRole(who, s.threads[who]) && Enabled(s, Plain(who))
    requires s.threads[who].StartAdd? ==> ToEnd(s.threads, s.threads[who].record) == 0
    ensures Left(Step(s, Plain(who)).threads, Step(s, Plain(who)).list) <= Left(s.threads, s.list)
    ensures forall w :: w != who ==> (w in Step(s, Plain(who)).threads <==> w in s.threads)
    ensures forall w :: w != who && w in s.threads ==> Step(s, Plain(who)).threads[w] == s.threads[w]
    ensures Step(s, Plain(who)).threads[who] == NextPc(s, s.threads[who], Plain(who))
  {
    hide Left, NextPc, Holds, Wants, Releases;
    var pc := s.threads[who];
    var after := Step(s, Plain(who));
    assert !(pc.StartCreate? && Plain(who).ok);
    LeftIsSame(s.threads, after.threads, after.list);
    if pc.StartAdd? {
      LeftAppended(s.threads, s.list, pc.record);
    } else if pc.StartRemove? && Position(s.list, pc.record) < |s.list| {
      LeftWithout(s.threads, s.list, Position(s.list, pc.record));
    } else if pc.GarbageRemove? && pc.at < |s.list| {
      LeftWithout(s.threads, s.list, pc.at);
    }
  }

  // The owner of the client's lock, for which the destruction waits.
  lemma OwnerStepIsNearer(s: State, o: Who)
    requires DESTRUCTION in s.threads && s.threads[DESTRUCTION].CollectLock? && o != DESTRUCTION
    requires ClientLock in s.owners && s.owners[ClientLock] == o && o in s.threads && !o.Upload?
    requires InRole(o, s.threads[o]) && CollectOk(s, s.threads[o]) && Enabled(s, Plain(o))
    requires Holds(s.threads[o], ClientLock)
    requires s.threads[o].StartAdd? ==> ToEnd(s.threads, s.threads[o].record) == 0
    requires s.threads[o].StartRemove? ==> s.threads[o].record in s.list
    ensures Nearer(s, Step(s, Plain(o)))
  {
    hide Left, Collects, Fourth;
    OthersLeaveLeft(s, o);
    OwnerStepsDown(s, o);
  }

  lemma OwnerStepsDown(s: State, o: Who)
    requires ClientLock in s.owners && s.owners[ClientLock] == o && o in s.threads
    requires !o.Upload? && o != DESTRUCTION && InRole(o, s.threads[o])
    requires CollectOk(s, s.threads[o]) && Enabled(s, Plain(o)) && Holds(s.threads[o], ClientLock)
    requires s.threads[o].StartRemove? ==> s.threads[o].record in s.list
    ensures OwnerLeft(Step(s, Plain(o))) < OwnerLeft(s)
  {
  }

  // A step of the destruction itself: towards the lock, or on while it has the lock.
  lemma EntryIsNearer(s: State)
    requires DESTRUCTION in s.threads && InRole(DESTRUCTION, s.threads[DESTRUCTION])
    requires s.threads[DESTRUCTION].Outside? || s.threads[DESTRUCTION].CollectLock?
    requires Enabled(s, Plain(DESTRUCTION))
    ensures Nearer(s, Step(s, Plain(DESTRUCTION)))
  {
    hide Left, Third, Fourth;
  }

  // It lets go of a record whose thread has not marked it.
  lemma ReleaseIsNearer(s: State)
    requires DESTRUCTION in s.threads && InRole(DESTRUCTION, s.threads[DESTRUCTION])
    requires s.threads[DESTRUCTION].GarbageTest? || s.threads[DESTRUCTION].GarbageSkip?
    requires s.threads[DESTRUCTION].record !in s.flagged
    requires Enabled(s, Plain(DESTRUCTION)) && Left(s.threads, s.list) > 0
    ensures Nearer(s, Step(s, Plain(DESTRUCTION)))
  {
    hide Left;
    OthersLeaveLeft(s, DESTRUCTION);
  }

  // It works its way through the list when all the threads have ended.
  lemma RemovalIsNearer(s: State)
    requires DESTRUCTION in s.threads && InRole(DESTRUCTION, s.threads[DESTRUCTION])
    requires Collects(s.threads[DESTRUCTION]) && CollectOk(s, s.threads[DESTRUCTION])
    requires s.threads[DESTRUCTION].GarbageTest? ==> s.threads[DESTRUCTION].record in s.flagged
    requires Enabled(s, Plain(DESTRUCTION)) && Left(s.threads, s.list) == 0
    ensures Nearer(s, Step(s, Plain(DESTRUCTION)))
  {
    hide Left;
    OthersLeaveLeft(s, DESTRUCTION);
  }

  // ----- Some such step is always enabled -----

  lemma OwnerIsThere(s: State, lock: Lock)
    requires Locked(s) && lock in s.owners
    ensures s.owners[lock] in s.threads && Holds(s.threads[s.owners[lock]], lock)
  {
    assert s.owners[lock] == s.owners[lock];
  }

  lemma HolderOwns(s: State, who: Who, lock: Lock)
    requires Locked(s) && who in s.threads && Holds(s.threads[who], lock)
    ensures lock in s.owners && s.owners[lock] == who
  {
  }

  // What a listed record means for its upload thread, when no starter is at work on the list.
  lemma ListedIsStarted(s: State, r: Record)
    requires LifeOk(LifeOf(s, r)) && r in s.list && (Starter(r) in s.threads ==> !Holds(s.threads[Starter(r)], ClientLock))
    ensures Upload(r) in s.threads && LifeOf(s, r).started && WithThread(LifeOf(s, r))
  {
  }

  // The roles that may hold a lock.
  lemma HoldersRoles(who: Who, pc: Pc, lock: Lock)
    requires InRole(who, pc) && Holds(pc, lock)
    ensures lock == ClientLock ==> !who.Upload?
    ensures lock.GarbageLock? && who.Collector? ==> Collects(pc) && Holds(pc, ClientLock)
    ensures lock.GarbageLock? && !who.Collector? ==> who == Upload(lock.record) && (pc.MarkIn? || pc.MarkUnlock?)
  {
  }

  // An upload thread past its mark, or not wanting its lock, can step; it can as well when the lock is free.
  lemma UploadSteps(s: State, r: Record)
    requires Upload(r) in s.threads && InRole(Upload(r), s.threads[Upload(r)]) && s.threads[Upload(r)] != Exited
    requires s.threads[Upload(r)].MarkLock? ==> GarbageLock(r) !in s.owners
    ensures Enabled(s, Plain(Upload(r)))
    ensures ToEnd(s.threads, r) > 0
  {
  }

  // A collector that stands on a record: it can step, or the record's thread can.
  lemma CollectorOrUploadSteps(s: State, who: Who) returns (next: Who)
    requires Inv(s) && who in s.threads && who.Collector? && Holds(s.threads[who], ClientLock)
    ensures next in s.threads && Enabled(s, Plain(next))
    ensures next == who || (OnEntry(s.threads[who]) && next == Upload(s.threads[who].record))
  {
    hide Locked, Lives, Cast, Collecting, Holds, HasExited, InRole, LifeOk, LifeOf, Wants;
    var pc := s.threads[who];
    WantsOfCollector(pc);
    assert InRole(who, pc) by { RoleOf(s, who); }
    HoldersRoles(who, pc, ClientLock);
    if pc.GarbageWant? && GarbageLock(pc.record) in s.owners {
      var lock := GarbageLock(pc.record);
      OwnerIsThere(s, lock);
      next := s.owners[lock];
      assert InRole(next, s.threads[next]) by { RoleOf(s, next); }
      HoldersRoles(next, s.threads[next], lock);
      if next.Collector? {
        HolderOwns(s, who, ClientLock);
        HolderOwns(s, next, ClientLock);
        WantsHoldsNothing(pc, lock);
      }
      UploadSteps(s, pc.record);
    } else if pc.GarbageJoin? && !HasExited(s, pc.record) {
      next := Upload(pc.record);
      JoinedThreadExits(s, who);
      assert InRole(next, s.threads[next]) by { RoleOf(s, next); }
      NotExited(s, pc.record);
      UploadSteps(s, pc.record);
    } else {
      next := who;
      CollectorSteps(s, who);
    }
  }

  lemma NotExited(s: State, r: Record)
    requires Upload(r) in s.threads && !HasExited(s, r)
    ensures s.threads[Upload(r)] != Exited
  {
  }

  lemma WantsOfCollector(pc: Pc)
    ensures pc.GarbageWant? ==> Wants(pc) == Some(GarbageLock(pc.record))
    ensures Collects(pc) && !pc.GarbageWant? ==> Wants(pc) == None
    ensures Collects(pc) ==> !Ended(pc)
  {
  }

  lemma WantsHoldsNothing(pc: Pc, lock: Lock)
    requires Wants(pc) == Some(lock)
    ensures !Holds(pc, lock)
  {
  }

  lemma CollectorSteps(s: State, who: Who)
    requires who in s.threads && Holds(s.threads[who], ClientLock) && InRole(who, s.threads[who]) && who.Collector?
    requires s.threads[who].GarbageWant? ==> GarbageLock(s.threads[who].record) !in s.owners
    requires s.threads[who].GarbageJoin? ==> HasExited(s, s.threads[who].record)
    ensures Enabled(s, Plain(who))
  {
  }

  lemma StarterSteps(s: State, who: Who)
    requires who in s.threads && Holds(s.threads[who], ClientLock) && InRole(who, s.threads[who]) && who.Starter?
    ensures Enabled(s, Plain(who))
  {
  }

  lemma StarterRecord(s: State, who: Who)
    requires Cast(s) && Lives(s) && Collecting(s) && who in s.threads && who.Starter?
    ensures InRole(who, s.threads[who]) && CollectOk(s, s.threads[who])
    ensures s.threads[who].StartAdd? ==> ToEnd(s.threads, s.threads[who].record) == 0
    ensures s.threads[who].StartRemove? ==> s.threads[who].record in s.list
  {
    assert InRole(who, s.threads[who]);
    assert LifeOk(LifeOf(s, who.record));
  }

  lemma ClaimsOf(s: State, who: Who)
    requires Cast(s) && Collecting(s) && who in s.threads
    ensures InRole(who, s.threads[who]) && CollectOk(s, s.threads[who])
  {
  }

  lemma EntryIsListed(s: State, pc: Pc)
    requires CollectOk(s, pc) && OnEntry(pc)
    ensures pc.record in s.list
  {
  }

  // Some thread brings the destruction that waits for the client's lock nearer to its end.
  lemma LockWaitMoves(s: State) returns (who: Who)
    requires Inv(s) && DESTRUCTION in s.threads && s.threads[DESTRUCTION].CollectLock?
    ensures Enabled(s, Plain(who)) && Nearer(s, Step(s, Plain(who)))
  {
    hide Locked, Lives, Cast, Collecting, Holds, InRole, Step, Nearer, CollectOk, ToEnd, Enabled;
    ClaimsOf(s, DESTRUCTION);
    if ClientLock !in s.owners {
      who := DESTRUCTION;
      DestructionTakes(s);
      EntryIsNearer(s);
    } else {
      var o := s.owners[ClientLock];
      OwnerIsThere(s, ClientLock);
      ClaimsOf(s, o);
      HoldersRoles(o, s.threads[o], ClientLock);
      OnlyCollectorsWaitOutside(s);
      if o.Starter? {
        who := o;
        StarterSteps(s, o);
        StarterRecord(s, o);
        OwnerStepIsNearer(s, o);
      } else {
        who := CollectorOrUploadSteps(s, o);
        CollectorsDoNotStart(o, s.threads[o]);
        if who == o {
          OwnerStepIsNearer(s, o);
        } else {
          ClaimsOf(s, who);
          EntryIsListed(s, s.threads[o]);
          UploadStepIsNearer(s, s.threads[o].record);
        }
      }
    }
  }

  lemma DestructionTakes(s: State)
    requires DESTRUCTION in s.threads && s.threads[DESTRUCTION].CollectLock? && ClientLock !in s.owners
    ensures Enabled(s, Plain(DESTRUCTION))
  {
  }

  lemma OnlyCollectorsWaitOutside(s: State)
    requires Locked(s) && DESTRUCTION in s.threads && s.threads[DESTRUCTION].CollectLock? && ClientLock in s.owners
    ensures s.owners[ClientLock] != DESTRUCTION
  {
  }

  lemma CollectorsDoNotStart(who: Who, pc: Pc)
    requires InRole(who, pc) && who.Collector?
    ensures !pc.StartAdd? && !pc.StartRemove?
  {
  }

  // The destruction has the lock and some listed upload thread has not ended: that thread can step,
  // or the destruction lets go of its record.
  lemma UploadsMove(s: State) returns (who: Who)
    requires Inv(s) && DESTRUCTION in s.threads && Collects(s.threads[DESTRUCTION]) && Left(s.threads, s.list) > 0
    ensures Enabled(s, Plain(who)) && Nearer(s, Step(s, Plain(who)))
  {
    hide Locked, Lives, Cast, Collecting, Holds, InRole, Step, Nearer, CollectOk, LifeOk, LifeOf, Enabled, WithThread, Wants;
    var pc := s.threads[DESTRUCTION];
    var r := SomeIsLeft(s.threads, s.list);
    ClaimsOf(s, DESTRUCTION);
    ListedUpload(s, r);
    ClaimsOf(s, Upload(r));
    who := Upload(r);
    if s.threads[who].MarkLock? && GarbageLock(r) in s.owners {
      var o := s.owners[GarbageLock(r)];
      OwnerIsThere(s, GarbageLock(r));
      ClaimsOf(s, o);
      HoldersRoles(o, s.threads[o], GarbageLock(r));
      if o.Collector? {
        CollectorHolds(pc);
        HolderOwns(s, DESTRUCTION, ClientLock);
        HolderOwns(s, o, ClientLock);
        StandsOnUnmarked(s, r);
        DestructionReleases(s);
        ReleaseIsNearer(s);
        who := DESTRUCTION;
      }
    } else {
      UploadSteps(s, r);
      UploadStepIsNearer(s, r);
    }
  }

  lemma CollectorHolds(pc: Pc)
    requires Collects(pc)
    ensures Holds(pc, ClientLock)
  {
  }

  // While the destruction has the client's lock, a listed record has its thread.
  lemma ListedUpload(s: State, r: Record)
    requires Locked(s) && Lives(s) && DESTRUCTION in s.threads && Collects(s.threads[DESTRUCTION]) && r in s.list
    ensures Upload(r) in s.threads && ToEnd(s.threads, r) > 0 ==> s.threads[Upload(r)] != Exited
    ensures Upload(r) in s.threads && WithThread(LifeOf(s, r))
  {
    hide Locked, LifeOk;
    CollectorHolds(s.threads[DESTRUCTION]);
    assert LifeOk(LifeOf(s, r));
    if Starter(r) in s.threads && Holds(s.threads[Starter(r)], ClientLock) {
      OneOwner(s, DESTRUCTION, Starter(r), ClientLock);
    }
    ListedIsStarted(s, r);
  }

  // A destruction that holds the lock of a record whose thread still wants it has just begun with it.
  lemma StandsOnUnmarked(s: State, r: Record)
    requires Lives(s) && Collecting(s) && DESTRUCTION in s.threads && Holds(s.threads[DESTRUCTION], GarbageLock(r))
    requires Collects(s.threads[DESTRUCTION]) && r in s.list
    requires Upload(r) in s.threads && s.threads[Upload(r)].MarkLock? && WithThread(LifeOf(s, r))
    ensures s.threads[DESTRUCTION].GarbageTest? || s.threads[DESTRUCTION].GarbageSkip?
    ensures s.threads[DESTRUCTION].record == r && r !in s.flagged
  {
    hide NoRepeats;
    assert CollectOk(s, s.threads[DESTRUCTION]);
    assert s.threads[DESTRUCTION].GarbageUnlock? ==> InHandOf(At(s, DESTRUCTION), r);
  }

  lemma DestructionReleases(s: State)
    requires DESTRUCTION in s.threads && (s.threads[DESTRUCTION].GarbageTest? || s.threads[DESTRUCTION].GarbageSkip?)
    ensures Enabled(s, Plain(DESTRUCTION))
  {
  }

  // The destruction has the lock and all listed upload threads have ended: it goes on.
  lemma DestructionMoves(s: State)
    requires Inv(s) && DESTRUCTION in s.threads && Collects(s.threads[DESTRUCTION]) && Left(s.threads, s.list) == 0
    ensures Enabled(s, Plain(DESTRUCTION)) && Nearer(s, Step(s, Plain(DESTRUCTION)))
  {
    hide Locked, Lives, Cast, Collecting, Holds, InRole, Step, Nearer, CollectOk, LifeOk, LifeOf, Enabled, WithThread;
    var pc := s.threads[DESTRUCTION];
    ClaimsOf(s, DESTRUCTION);
    CollectorHolds(pc);
    if OnEntry(pc) {
      EntryIsListed(s, pc);
      NoneIsLeft(s.threads, s.list, pc.record);
      ListedUpload(s, pc.record);
      EndedIsMarked(s, pc.record);
    }
    var next := CollectorOrUploadSteps(s, DESTRUCTION);
    if next != DESTRUCTION {
      ClaimsOf(s, next);
      EndedDoesNotStep(s, pc.record);
    }
    RemovalIsNearer(s);
  }

  lemma EndedIsMarked(s: State, r: Record)
    requires Cast(s) && Upload(r) in s.threads && ToEnd(s.threads, r) == 0 && WithThread(LifeOf(s, r))
    ensures s.threads[Upload(r)] == Exited && r in s.flagged
  {
    assert InRole(Upload(r), s.threads[Upload(r)]);
  }

  lemma EndedDoesNotStep(s: State, r: Record)
    requires Upload(r) in s.threads && s.threads[Upload(r)] == Exited
    ensures !Enabled(s, Plain(Upload(r)))
  {
  }

  // ----- The destruction can be finished -----

  lemma SomeStepIsNearer(s: State) returns (who: Who)
    requires Inv(s) && DESTRUCTION in s.threads && s.threads[DESTRUCTION] != Finished
    ensures Enabled(s, Plain(who)) && Nearer(s, Step(s, Plain(who)))
  {
    hide Locked, Lives, Collecting, Enabled, Step, Nearer, Left;
    var pc := s.threads[DESTRUCTION];
    assert InRole(DESTRUCTION, pc);
    if pc.Outside? {
      who := DESTRUCTION;
      OutsideSteps(s);
      EntryIsNearer(s);
    } else if pc.CollectLock? {
      who := LockWaitMoves(s);
    } else if Left(s.threads, s.list) > 0 {
      who := UploadsMove(s);
    } else {
      who := DESTRUCTION;
      DestructionMoves(s);
    }
  }

  lemma OutsideSteps(s: State)
    requires DESTRUCTION in s.threads && s.threads[DESTRUCTION].Outside?
    ensures Enabled(s, Plain(DESTRUCTION))
  {
  }

  lemma {:induction false} FinishFrom(s: State) returns (more: seq<Choice>, t: State)
    requires Inv(s) && DESTRUCTION in s.threads
    ensures IsRun(s, more, t) && DESTRUCTION in t.threads && t.threads[DESTRUCTION] == Finished
    decreases Phase(s.threads[DESTRUCTION]), Left(s.threads, s.list), Third(s), Fourth(s)
  {
    hide Inv, Step, Enabled, Phase, Left, Third, Fourth;
    if s.threads[DESTRUCTION] == Finished {
      more, t := [], s;
    } else {
      var who := SomeStepIsNearer(s);
      StepKeepsInv(s, Plain(who));
      var rest;
      rest, t := FinishFrom(Step(s, Plain(who)));
      more := [Plain(who)] + rest;
      assert more[1..] == rest;
    }
  }

  // From every reachable state the destruction can be brought to its end, whatever the callers, the
  // upload threads and the worker were doing.
  lemma DestructionCanFinish(initial: State, choices: seq<Choice>, s: State) returns (more: seq<Choice>, t: State)
    requires Initial(initial) && IsRun(initial, choices, s) && DESTRUCTION in s.threads
    ensures IsRun(s, more, t) && DESTRUCTION in t.threads && t.threads[DESTRUCTION] == Finished
  {
    hide Inv, Initial;
    ReachableIsSafe(initial, choices, s);
    more, t := FinishFrom(s);
  }
}
