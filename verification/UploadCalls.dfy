/** The calls on the upload records, each made by one thread that nothing disturbs: a start, an upload,
    and a collection, which does to the list what the collecting loop does. */
module UploadCalls {
  import opened Options
  import opened Sequences
  import opened UploadThreads

  // ----- Runs of one thread -----

  ghost predicate By(choices: seq<Choice>, who: Who) {
    forall i :: 0 <= i < |choices| ==> choices[i].who == who
  }

  // A run of one thread.
  ghost predicate RunsTo(s: State, who: Who, choices: seq<Choice>, t: State) {
    IsRun(s, choices, t) && By(choices, who)
  }

  lemma {:induction false} RunsCompose(s: State, first: seq<Choice>, mid: State, second: seq<Choice>, t: State)
    requires IsRun(s, first, mid) && IsRun(mid, second, t)
    ensures IsRun(s, first + second, t)
    decreases |first|
  {
    hide Step, Enabled;
    if first == [] {
      assert first + second == second;
    } else {
      assert (first + second)[1..] == first[1..] + second;
      RunsCompose(Step(s, first[0]), first[1..], mid, second, t);
    }
  }

  lemma StepIsRun(s: State, x: Choice)
    requires Enabled(s, x)
    ensures IsRun(s, [x], Step(s, x))
  {
    hide Step, Enabled;
    assert [x][1..] == [];
    assert IsRun(Step(s, x), [], Step(s, x));
  }

  lemma OneMore(s: State, who: Who, choices: seq<Choice>, mid: State, ok: bool)
    requires RunsTo(s, who, choices, mid) && Enabled(mid, Choice(who, ok))
    ensures RunsTo(s, who, choices + [Choice(who, ok)], Step(mid, Choice(who, ok)))
  {
    hide Step, Enabled, IsRun;
    StepIsRun(mid, Choice(who, ok));
    RunsCompose(s, choices, mid, [Choice(who, ok)], Step(mid, Choice(who, ok)));
  }

  lemma NothingDone(s: State, who: Who)
    ensures RunsTo(s, who, [], s)
  {
  }

  lemma Overwrites<K, V>(m: map<K, V>, k: K, v: V, w: V)
    ensures m[k := v][k := w] == m[k := w]
  {
  }

  // Taking a free lock and letting go of it leaves the owners as they were.
  lemma TakenAndReleased(owners: map<Lock, Who>, lock: Lock, who: Who)
    requires lock !in owners
    ensures owners[lock := who] - {lock} == owners
  {
  }

  // ----- A start -----

  lemma StartBegins(s: State, r: Record, ok: bool)
    requires Starter(r) !in s.threads
    ensures var x := Choice(Starter(r), ok);
            Enabled(s, x) && Step(s, x) == s.(threads := s.threads[Starter(r) := StartLock(r)])
  {
  }

  lemma StartTakes(s: State, r: Record, ok: bool)
    requires At(s, Starter(r)) == Some(StartLock(r)) && ClientLock !in s.owners
    ensures var x := Choice(Starter(r), ok);
            && Enabled(s, x)
            && Step(s, x) == s.(threads := s.threads[Starter(r) := StartAdd(r)],
                                owners := s.owners[ClientLock := Starter(r)])
  {
  }

  lemma StartAdds(s: State, r: Record, ok: bool)
    requires At(s, Starter(r)) == Some(StartAdd(r))
    ensures var x := Choice(Starter(r), ok);
            Enabled(s, x) && Step(s, x) == s.(threads := s.threads[Starter(r) := StartCreate(r)], list := s.list + [r])
  {
  }

  lemma StartCreates(s: State, r: Record, ok: bool)
    requires At(s, Starter(r)) == Some(StartCreate(r))
    ensures var x := Choice(Starter(r), ok);
            && Enabled(s, x)
            && (ok ==> Step(s, x) == s.(started := s.started + {r}, threads :=
                         s.threads[Starter(r) := StartUnlock(r, true)][Upload(r) := Uploading(r)]))
            && (!ok ==> Step(s, x) == s.(threads := s.threads[Starter(r) := StartRemove(r)]))
  {
  }

  lemma StartRemoves(s: State, r: Record, ok: bool)
    requires At(s, Starter(r)) == Some(StartRemove(r))
    ensures var x := Choice(Starter(r), ok);
            && Enabled(s, x)
            && Step(s, x) == s.(threads := s.threads[Starter(r) := StartUnlock(r, false)],
                                list := Without(s.list, Position(s.list, r)))
  {
  }

  lemma StartLetsGo(s: State, r: Record, ok: bool, created: bool)
    requires At(s, Starter(r)) == Some(StartUnlock(r, created))
    ensures var x := Choice(Starter(r), ok);
            && Enabled(s, x)
            && Step(s, x) == s.(threads := s.threads[Starter(r) := if created then Returned else StartFree(r)],
                                owners := s.owners - {ClientLock})
  {
  }

  lemma StartFrees(s: State, r: Record, ok: bool)
    requires At(s, Starter(r)) == Some(StartFree(r))
    ensures var x := Choice(Starter(r), ok);
            Enabled(s, x) && Step(s, x) == s.(threads := s.threads[Starter(r) := Returned], freed := s.freed + [r])
  {
  }

  lemma StartLists(s: State, r: Record, ok: bool) returns (choices: seq<Choice>, after: State)
    requires Starter(r) !in s.threads && ClientLock !in s.owners
    ensures RunsTo(s, Starter(r), choices, after)
    ensures after == s.(threads := s.threads[Starter(r) := StartCreate(r)], list := s.list + [r],
                        owners := s.owners[ClientLock := Starter(r)])
  {
    hide Step, Enabled, RunsTo;
    var who, x := Starter(r), Choice(Starter(r), ok);
    NothingDone(s, who);
    StartBegins(s, r, ok);
    OneMore(s, who, [], s, ok);
    var s1 := Step(s, x);
    StartTakes(s1, r, ok);
    OneMore(s, who, [] + [x], s1, ok);
    var s2 := Step(s1, x);
    Overwrites(s.threads, who, StartLock(r), StartAdd(r));
    StartAdds(s2, r, ok);
    OneMore(s, who, [] + [x] + [x], s2, ok);
    Overwrites(s.threads, who, StartAdd(r), StartCreate(r));
    choices, after := [] + [x] + [x] + [x], Step(s2, x);
  }

  // A start that nothing disturbs lists its record and hands it to a new upload thread.
  lemma StartAlone(s: State, r: Record) returns (choices: seq<Choice>, after: State)
    requires Starter(r) !in s.threads && ClientLock !in s.owners
    ensures RunsTo(s, Starter(r), choices, after)
    ensures after == s.(threads := s.threads[Starter(r) := Returned][Upload(r) := Uploading(r)], list := s.list + [r],
                        started := s.started + {r})
  {
    hide Step, Enabled, RunsTo;
    var who, x := Starter(r), Choice(Starter(r), true);
    var first, s3 := StartLists(s, r, true);
    StartCreates(s3, r, true);
    OneMore(s, who, first, s3, true);
    var s4 := Step(s3, x);
    StartLetsGo(s4, r, true, true);
    OneMore(s, who, first + [x], s4, true);
    TakenAndReleased(s.owners, ClientLock, who);
    choices, after := first + [x] + [x], Step(s4, x);
    assert s.threads[who := StartCreate(r)][who := StartUnlock(r, true)][Upload(r) := Uploading(r)][who := Returned]
        == s.threads[who := Returned][Upload(r) := Uploading(r)];
  }

  lemma ListedLast(list: seq<Record>, r: Record)
    requires r !in list
    ensures Without(list + [r], Position(list + [r], r)) == list
  {
    var longer := list + [r];
    var i := Position(longer, r);
    assert longer[|list|] == r;
    assert i == |list|;
  }

  // When the thread cannot be created, the record is off the list again and freed, and nothing else is
  // changed.
  lemma StartFailsAlone(s: State, r: Record) returns (choices: seq<Choice>, after: State)
    requires Starter(r) !in s.threads && ClientLock !in s.owners && r !in s.list
    ensures RunsTo(s, Starter(r), choices, after)
    ensures after == s.(threads := s.threads[Starter(r) := Returned], freed := s.freed + [r])
  {
    hide Step, Enabled, RunsTo, Without, Position;
    var who, x := Starter(r), Choice(Starter(r), false);
    var first, s3 := StartLists(s, r, false);
    StartCreates(s3, r, false);
    OneMore(s, who, first, s3, false);
    var s4 := Step(s3, x);
    Overwrites(s.threads, who, StartCreate(r), StartRemove(r));
    StartRemoves(s4, r, false);
    OneMore(s, who, first + [x], s4, false);
    var s5 := Step(s4, x);
    ListedLast(s.list, r);
    Overwrites(s.threads, who, StartRemove(r), StartUnlock(r, false));
    var rest := StartEnds(s, s5, r, first + [x] + [x]);
    TakenAndReleased(s.owners, ClientLock, who);
    Overwrites(s.threads, who, StartUnlock(r, false), Returned);
    choices, after := rest, s5.(threads := s5.threads[who := Returned], owners := s5.owners - {ClientLock},
                                freed := s5.freed + [r]);
  }

  lemma StartEnds(origin: State, s: State, r: Record, choices: seq<Choice>) returns (more: seq<Choice>)
    requires At(s, Starter(r)) == Some(StartUnlock(r, false)) && RunsTo(origin, Starter(r), choices, s)
    ensures RunsTo(origin, Starter(r), more,
                   s.(threads := s.threads[Starter(r) := Returned], owners := s.owners - {ClientLock},
                      freed := s.freed + [r]))
  {
    hide Step, Enabled, RunsTo;
    var who, x := Starter(r), Choice(Starter(r), false);
    StartLetsGo(s, r, false, false);
    OneMore(origin, who, choices, s, false);
    var s1 := Step(s, x);
    StartFrees(s1, r, false);
    OneMore(origin, who, choices + [x], s1, false);
    Overwrites(s.threads, who, StartFree(r), Returned);
    more := choices + [x] + [x];
  }

  // ----- An upload -----

  lemma UploadMoves(s: State, r: Record)
    requires GarbageLock(r) !in s.owners
    ensures var who, x := Upload(r), Choice(Upload(r), true);
            && (At(s, who) == Some(Uploading(r)) ==>
                  Enabled(s, x) && Step(s, x) == s.(threads := s.threads[who := MarkLock(r)]))
            && (At(s, who) == Some(MarkLock(r)) ==>
                  && Enabled(s, x)
                  && Step(s, x) == s.(threads := s.threads[who := MarkIn(r)],
                                      owners := s.owners[GarbageLock(r) := who]))
  {
  }

  lemma UploadMarks(s: State, r: Record)
    ensures var who, x := Upload(r), Choice(Upload(r), true);
            && (At(s, who) == Some(MarkIn(r)) ==>
                  && Enabled(s, x)
                  && Step(s, x) == s.(threads := s.threads[who := MarkUnlock(r)], flagged := s.flagged + {r}))
            && (At(s, who) == Some(MarkUnlock(r)) ==>
                  && Enabled(s, x)
                  && Step(s, x) == s.(threads := s.threads[who := Exiting(r)], owners := s.owners - {GarbageLock(r)}))
            && (At(s, who) == Some(Exiting(r)) ==>
                  Enabled(s, x) && Step(s, x) == s.(threads := s.threads[who := Exited]))
  {
  }

  // An upload thread that nothing disturbs marks its record and ends.
  lemma UploadAlone(s: State, r: Record) returns (choices: seq<Choice>, after: State)
    requires At(s, Upload(r)) == Some(Uploading(r)) && GarbageLock(r) !in s.owners
    ensures RunsTo(s, Upload(r), choices, after)
    ensures after == s.(threads := s.threads[Upload(r) := Exited], flagged := s.flagged + {r})
  {
    hide Step, Enabled, RunsTo;
    var who, x := Upload(r), Choice(Upload(r), true);
    NothingDone(s, who);
    UploadMoves(s, r);
    OneMore(s, who, [], s, true);
    var s1 := Step(s, x);
    UploadMoves(s1, r);
    OneMore(s, who, [] + [x], s1, true);
    var s2 := Step(s1, x);
    Overwrites(s.threads, who, MarkLock(r), MarkIn(r));
    choices, after := UploadEnds(s, s2, r, [] + [x] + [x]);
    TakenAndReleased(s.owners, GarbageLock(r), who);
    Overwrites(s.threads, who, MarkIn(r), Exited);
  }

  lemma UploadEnds(origin: State, s: State, r: Record, choices: seq<Choice>) returns (more: seq<Choice>, after: State)
    requires At(s, Upload(r)) == Some(MarkIn(r)) && RunsTo(origin, Upload(r), choices, s)
    ensures RunsTo(origin, Upload(r), more, after)
    ensures after == s.(threads := s.threads[Upload(r) := Exited], flagged := s.flagged + {r},
                        owners := s.owners - {GarbageLock(r)})
  {
    hide Step, Enabled, RunsTo;
    var who, x := Upload(r), Choice(Upload(r), true);
    UploadMarks(s, r);
    OneMore(origin, who, choices, s, true);
    var s1 := Step(s, x);
    UploadMarks(s1, r);
    OneMore(origin, who, choices + [x], s1, true);
    var s2 := Step(s1, x);
    Overwrites(s.threads, who, MarkUnlock(r), Exiting(r));
    UploadMarks(s2, r);
    OneMore(origin, who, choices + [x] + [x], s2, true);
    Overwrites(s.threads, who, Exiting(r), Exited);
    more, after := choices + [x] + [x] + [x], Step(s2, x);
  }

  // ----- A collection -----

  lemma CollectorTurns(s: State, d: bool, i: nat)
    requires At(s, Collector(d)) == Some(CollectAt(i)) && i < |s.list|
    ensures var who, x := Collector(d), Choice(Collector(d), true);
            Enabled(s, x) && Step(s, x) == s.(threads := s.threads[who := GarbageWant(i, s.list[i])])
  {
  }

  lemma CollectorTakes(s: State, d: bool, i: nat, r: Record)
    requires At(s, Collector(d)) == Some(GarbageWant(i, r)) && GarbageLock(r) !in s.owners
    ensures var who, x := Collector(d), Choice(Collector(d), true);
            && Enabled(s, x)
            && Step(s, x) == s.(threads := s.threads[who := GarbageTest(i, r)],
                                owners := s.owners[GarbageLock(r) := who])
  {
  }

  lemma CollectorTests(s: State, d: bool, i: nat, r: Record)
    requires At(s, Collector(d)) == Some(GarbageTest(i, r))
    ensures var who, x := Collector(d), Choice(Collector(d), true);
            && Enabled(s, x)
            && (r in s.flagged ==> Step(s, x) == s.(threads := s.threads[who := GarbageJoin(i, r)]))
            && (r !in s.flagged ==> Step(s, x) == s.(threads := s.threads[who := GarbageSkip(i, r)]))
  {
  }

  lemma CollectorSkips(s: State, d: bool, i: nat, r: Record)
    requires At(s, Collector(d)) == Some(GarbageSkip(i, r))
    ensures var who, x := Collector(d), Choice(Collector(d), true);
            && Enabled(s, x)
            && Step(s, x) == s.(threads := s.threads[who := CollectAt(i + 1)], owners := s.owners - {GarbageLock(r)})
  {
  }

  lemma CollectorJoins(s: State, d: bool, i: nat, r: Record)
    requires At(s, Collector(d)) == Some(GarbageJoin(i, r))
    ensures var who, x := Collector(d), Choice(Collector(d), true);
            && (Enabled(s, x) <==> HasExited(s, r))
            && (Enabled(s, x) ==> Step(s, x) == s.(threads := s.threads[who := GarbageRemove(i, r)]))
  {
  }

  lemma CollectorRemoves(s: State, d: bool, i: nat, r: Record)
    requires At(s, Collector(d)) == Some(GarbageRemove(i, r))
    ensures var who, x := Collector(d), Choice(Collector(d), true);
            && Enabled(s, x)
            && Step(s, x) == s.(threads := s.threads[who := GarbageUnlock(i, r)], list := Without(s.list, i))
  {
  }

  lemma CollectorLetsGo(s: State, d: bool, i: nat, r: Record)
    requires At(s, Collector(d)) == Some(GarbageUnlock(i, r))
    ensures var who, x := Collector(d), Choice(Collector(d), true);
            && Enabled(s, x)
            && Step(s, x) == s.(threads := s.threads[who := GarbageFree(i, r)], owners := s.owners - {GarbageLock(r)})
  {
  }

  lemma CollectorFrees(s: State, d: bool, i: nat, r: Record)
    requires At(s, Collector(d)) == Some(GarbageFree(i, r))
    ensures var who, x := Collector(d), Choice(Collector(d), true);
            && Enabled(s, x)
            && Step(s, x) == s.(threads := s.threads[who := CollectAt(i)], freed := s.freed + [r])
  {
  }

  lemma TestsOne(origin: State, choices: seq<Choice>, s: State, d: bool, i: nat)
    returns (more: seq<Choice>, after: State)
    requires RunsTo(origin, Collector(d), choices, s)
    requires At(s, Collector(d)) == Some(CollectAt(i)) && i < |s.list| && GarbageLock(s.list[i]) !in s.owners
    ensures RunsTo(origin, Collector(d), more, after)
    ensures var r := s.list[i];
            after == s.(owners := s.owners[GarbageLock(r) := Collector(d)], threads :=
              s.threads[Collector(d) := if r in s.flagged then GarbageJoin(i, r) else GarbageSkip(i, r)])
  {
    hide Step, Enabled, RunsTo;
    var who, x, r := Collector(d), Choice(Collector(d), true), s.list[i];
    CollectorTurns(s, d, i);
    OneMore(origin, who, choices, s, true);
    var s1 := Step(s, x);
    CollectorTakes(s1, d, i, r);
    OneMore(origin, who, choices + [x], s1, true);
    var s2 := Step(s1, x);
    Overwrites(s.threads, who, GarbageWant(i, r), GarbageTest(i, r));
    CollectorTests(s2, d, i, r);
    OneMore(origin, who, choices + [x] + [x], s2, true);
    more, after := choices + [x] + [x] + [x], Step(s2, x);
    Overwrites(s.threads, who, GarbageTest(i, r), after.threads[who]);
  }

  // A record that is not marked is passed by.
  lemma SkipsOne(origin: State, choices: seq<Choice>, s: State, d: bool, i: nat)
    returns (more: seq<Choice>, after: State)
    requires RunsTo(origin, Collector(d), choices, s)
    requires At(s, Collector(d)) == Some(CollectAt(i)) && i < |s.list| && GarbageLock(s.list[i]) !in s.owners
    requires s.list[i] !in s.flagged
    ensures RunsTo(origin, Collector(d), more, after)
    ensures after == s.(threads := s.threads[Collector(d) := CollectAt(i + 1)])
  {
    hide Step, Enabled, RunsTo;
    var who, x, r := Collector(d), Choice(Collector(d), true), s.list[i];
    var tested, s3 := TestsOne(origin, choices, s, d, i);
    CollectorSkips(s3, d, i, r);
    OneMore(origin, who, tested, s3, true);
    Overwrites(s.threads, who, GarbageSkip(i, r), CollectAt(i + 1));
    TakenAndReleased(s.owners, GarbageLock(r), who);
    more, after := tested + [x], Step(s3, x);
  }

  // The thread of a marked record is joined, and the record taken off the list and freed.
  lemma FreesOne(origin: State, choices: seq<Choice>, s: State, d: bool, i: nat)
    returns (more: seq<Choice>, after: State)
    requires RunsTo(origin, Collector(d), choices, s)
    requires At(s, Collector(d)) == Some(CollectAt(i)) && i < |s.list| && GarbageLock(s.list[i]) !in s.owners
    requires s.list[i] in s.flagged && HasExited(s, s.list[i])
    ensures RunsTo(origin, Collector(d), more, after)
    ensures after == s.(threads := s.threads[Collector(d) := CollectAt(i)], list := s.list[..i] + s.list[i + 1..],
                        freed := s.freed + [s.list[i]])
  {
    hide Step, Enabled, RunsTo;
    var who, x, r := Collector(d), Choice(Collector(d), true), s.list[i];
    var tested, s3 := TestsOne(origin, choices, s, d, i);
    CollectorJoins(s3, d, i, r);
    OneMore(origin, who, tested, s3, true);
    var s4 := Step(s3, x);
    Overwrites(s.threads, who, GarbageJoin(i, r), GarbageRemove(i, r));
    more, after := RemovesOne(origin, tested + [x], s4, d, i, r);
    Overwrites(s.threads, who, GarbageRemove(i, r), CollectAt(i));
    TakenAndReleased(s.owners, GarbageLock(r), who);
  }

  lemma RemovesOne(origin: State, choices: seq<Choice>, s: State, d: bool, i: nat, r: Record)
    returns (more: seq<Choice>, after: State)
    requires RunsTo(origin, Collector(d), choices, s)
    requires At(s, Collector(d)) == Some(GarbageRemove(i, r))
    ensures RunsTo(origin, Collector(d), more, after)
    ensures after == s.(threads := s.threads[Collector(d) := CollectAt(i)], list := Without(s.list, i),
                        freed := s.freed + [r], owners := s.owners - {GarbageLock(r)})
  {
    hide Step, Enabled, RunsTo;
    var who, x := Collector(d), Choice(Collector(d), true);
    CollectorRemoves(s, d, i, r);
    OneMore(origin, who, choices, s, true);
    var s1 := Step(s, x);
    CollectorLetsGo(s1, d, i, r);
    OneMore(origin, who, choices + [x], s1, true);
    var s2 := Step(s1, x);
    Overwrites(s.threads, who, GarbageUnlock(i, r), GarbageFree(i, r));
    CollectorFrees(s2, d, i, r);
    OneMore(origin, who, choices + [x] + [x], s2, true);
    Overwrites(s.threads, who, GarbageFree(i, r), CollectAt(i));
    more, after := choices + [x] + [x] + [x], Step(s2, x);
  }

  // The locks of the listed records are free, and the threads of the marked ones have ended.
  ghost predicate ReadyToCollect(s: State) {
    forall r :: r in s.list ==> GarbageLock(r) !in s.owners && (r in s.flagged ==> HasExited(s, r))
  }

  lemma {:induction false} MarkedFirst(r: Record, rest: seq<Record>, flagged: set<Record>, wanted: bool)
    ensures Marked([r] + rest, flagged, wanted)
         == (if (r in flagged) == wanted then [r] else []) + Marked(rest, flagged, wanted)
  {
    var hit := if (r in flagged) == wanted then [r] else [];
    if rest == [] {
      assert [r] + rest == [r] && [r][..0] == [];
      assert hit + [] == hit;
    } else {
      var earlier, last := rest[..|rest| - 1], rest[|rest| - 1];
      MarkedFirst(r, earlier, flagged, wanted);
      AppendLast([r], earlier, last);
      assert rest == earlier + [last];
      Associate(hit, Marked(earlier, flagged, wanted), if (last in flagged) == wanted then [last] else []);
    }
  }

  // What is left of the list, and what is freed, when the collector stands at index i.
  function Kept(s: State, i: nat): seq<Record>
    requires i <= |s.list|
  {
    s.list[..i] + Marked(s.list[i..], s.flagged, false)
  }

  function Taken(s: State, i: nat): seq<Record>
    requires i <= |s.list|
  {
    Marked(s.list[i..], s.flagged, true)
  }

  lemma KeptNext(s: State, i: nat)
    requires i < |s.list|
    ensures s.list[i] !in s.flagged ==> Kept(s, i + 1) == Kept(s, i) && Taken(s, i + 1) == Taken(s, i)
  {
    var r, rest := s.list[i], s.list[i + 1..];
    assert s.list[i..] == [r] + rest;
    MarkedFirst(r, rest, s.flagged, false);
    MarkedFirst(r, rest, s.flagged, true);
    assert s.list[..i + 1] == s.list[..i] + [r];
    Associate(s.list[..i], [r], Marked(rest, s.flagged, false));
    assert [] + Taken(s, i + 1) == Taken(s, i + 1);
  }

  lemma KeptAfterFree(s: State, t: State, i: nat)
    requires i < |s.list| && s.list[i] in s.flagged
    requires t.list == s.list[..i] + s.list[i + 1..] && t.flagged == s.flagged
    ensures Kept(t, i) == Kept(s, i) && [s.list[i]] + Taken(t, i) == Taken(s, i)
  {
    var r, rest := s.list[i], s.list[i + 1..];
    assert s.list[i..] == [r] + rest;
    MarkedFirst(r, rest, s.flagged, false);
    MarkedFirst(r, rest, s.flagged, true);
    assert t.list[..i] == s.list[..i] && t.list[i..] == rest;
    assert [] + Marked(rest, s.flagged, false) == Marked(rest, s.flagged, false);
  }

  lemma KeptAtEnd(s: State)
    ensures Kept(s, |s.list|) == s.list && Taken(s, |s.list|) == []
  {
    assert s.list[|s.list|..] == [];
  }

  lemma {:induction false} PassFrom(origin: State, choices: seq<Choice>, s: State, d: bool, i: nat)
    returns (more: seq<Choice>, after: State)
    requires RunsTo(origin, Collector(d), choices, s) && ReadyToCollect(s)
    requires At(s, Collector(d)) == Some(CollectAt(i)) && i <= |s.list|
    ensures RunsTo(origin, Collector(d), more, after)
    ensures after == s.(threads := s.threads[Collector(d) := CollectAt(|Kept(s, i)|)], list := Kept(s, i),
                        freed := s.freed + Taken(s, i))
    decreases |s.list| - i
  {
    hide Step, Enabled, RunsTo, Kept, Taken, Marked;
    var who := Collector(d);
    if i == |s.list| {
      KeptAtEnd(s);
      more, after := choices, s;
      assert s.freed + [] == s.freed;
      assert s.threads[who := CollectAt(i)] == s.threads;
    } else if s.list[i] in s.flagged {
      var next, t := FreesOne(origin, choices, s, d, i);
      KeptAfterFree(s, t, i);
      more, after := PassFrom(origin, next, t, d, i);
      Associate(s.freed, [s.list[i]], Taken(t, i));
      Overwrites(s.threads, who, CollectAt(i), CollectAt(|Kept(s, i)|));
    } else {
      var next, t := SkipsOne(origin, choices, s, d, i);
      KeptNext(s, i);
      SameKept(s, t, i + 1);
      more, after := PassFrom(origin, next, t, d, i + 1);
      Overwrites(s.threads, who, CollectAt(i + 1), CollectAt(|Kept(s, i)|));
    }
  }

  lemma SameKept(s: State, t: State, i: nat)
    requires i <= |s.list| && t.list == s.list && t.flagged == s.flagged
    ensures Kept(t, i) == Kept(s, i) && Taken(t, i) == Taken(s, i)
  {
  }

  lemma CollectionBegins(s: State, d: bool)
    requires ClientLock !in s.owners
    ensures var who, x := Collector(d), Choice(Collector(d), true);
            && (At(s, who) == Some(Outside) ==>
                  Enabled(s, x) && Step(s, x) == s.(threads := s.threads[who := CollectLock]))
            && (At(s, who) == Some(CollectLock) ==>
                  && Enabled(s, x)
                  && Step(s, x) == s.(threads := s.threads[who := CollectAt(0)], owners := s.owners[ClientLock := who]))
  {
  }

  lemma CollectionEnds(s: State, d: bool)
    ensures var who, x := Collector(d), Choice(Collector(d), true);
            && (At(s, who) == Some(CollectAt(|s.list|)) ==>
                  && Enabled(s, x)
                  && (!d || s.list == [] ==> Step(s, x) == s.(threads := s.threads[who := CollectUnlock])))
            && (At(s, who) == Some(CollectUnlock) ==>
                  && Enabled(s, x)
                  && Step(s, x) == s.(threads := s.threads[who := if d then Finished else Outside],
                                      owners := s.owners - {ClientLock}))
  {
  }

  // A collection that nothing disturbs does to the list what the collecting loop does: the marked
  // records are taken off and freed, in list order, the others stay. The worker goes back to its other
  // work; the destruction is over if no record is left.
  lemma CollectionAlone(s: State, d: bool) returns (choices: seq<Choice>, after: State)
    requires At(s, Collector(d)) == Some(Outside) && ClientLock !in s.owners && ReadyToCollect(s)
    requires d ==> Marked(s.list, s.flagged, false) == []
    ensures RunsTo(s, Collector(d), choices, after)
    ensures after == s.(threads := s.threads[Collector(d) := if d then Finished else Outside],
                        list := Marked(s.list, s.flagged, false), freed := s.freed + Marked(s.list, s.flagged, true))
  {
    hide Step, Enabled, RunsTo, Marked;
    var who, x := Collector(d), Choice(Collector(d), true);
    NothingDone(s, who);
    CollectionBegins(s, d);
    OneMore(s, who, [], s, true);
    var s1 := Step(s, x);
    CollectionBegins(s1, d);
    OneMore(s, who, [] + [x], s1, true);
    var s2 := Step(s1, x);
    Overwrites(s.threads, who, CollectLock, CollectAt(0));
    assert s2.list[0..] == s.list && s2.list[..0] == [];
    assert [] + Marked(s.list, s.flagged, false) == Marked(s.list, s.flagged, false);
    var passed, s3 := PassFrom(s, [] + [x] + [x], s2, d, 0);
    Overwrites(s.threads, who, CollectAt(0), CollectAt(|s3.list|));
    choices := CollectionOver(s, passed, s3, d);
    Overwrites(s.threads, who, CollectAt(|s3.list|), if d then Finished else Outside);
    TakenAndReleased(s.owners, ClientLock, who);
    after := s3.(threads := s3.threads[who := if d then Finished else Outside], owners := s3.owners - {ClientLock});
  }

  lemma CollectionOver(origin: State, choices: seq<Choice>, s: State, d: bool) returns (more: seq<Choice>)
    requires RunsTo(origin, Collector(d), choices, s)
    requires At(s, Collector(d)) == Some(CollectAt(|s.list|)) && (d ==> s.list == [])
    ensures RunsTo(origin, Collector(d), more,
                   s.(threads := s.threads[Collector(d) := if d then Finished else Outside],
                      owners := s.owners - {ClientLock}))
  {
    hide Step, Enabled, RunsTo;
    var who, x := Collector(d), Choice(Collector(d), true);
    CollectionEnds(s, d);
    OneMore(origin, who, choices, s, true);
    var s1 := Step(s, x);
    CollectionEnds(s1, d);
    OneMore(origin, who, choices + [x], s1, true);
    Overwrites(s.threads, who, CollectUnlock, if d then Finished else Outside);
    more := choices + [x] + [x];
  }

  // The destruction goes over the list again while a record is left on it.
  lemma DestructionGoesOn(s: State)
    requires At(s, Collector(true)) == Some(CollectAt(|s.list|)) && s.list != []
    ensures var x := Choice(Collector(true), true);
            Enabled(s, x) && Step(s, x) == s.(threads := s.threads[Collector(true) := CollectAt(0)])
  {
  }
}
