/** What programs may rely on when they wait, resume and close. */
module Wakeups {
  import opened Prelude
  import opened EventRecords
  import opened Scheduler
  import opened SchedulerInvariant
  import Spec = PrivateStacks

  // ---- no lost wake-up ----

  /** mco waits for fd, which nobody has closed meanwhile. */
  predicate WaitsFor(t: Thread, mco: Id, fd: Fd) {
    WaitsOn(t, mco, fd) && fd in t.user
  }

  /** fd is mapped to the coroutine that waits for it, and it is watched for reading. */
  lemma Armed(t: Thread, mco: Id, fd: Fd)
    requires Inv(t) && WaitsFor(t, mco, fd)
    ensures fd in t.fdMcos && t.fdMcos[fd] == mco && fd in t.events && t.events[fd] == t.frames[mco].event
    ensures t.events[fd] in t.records && t.records[t.events[fd]].eorigin == READ_EVENT
    ensures fd in t.interest && t.interest[fd] == READ_EVENT
  {
  }

  /** The frame of a coroutine that is resumed while it waits is gone, and it is the one that runs. */
  lemma WakeShape(t: Thread, mco: Id)
    requires Inv(t) && InMain(t) && mco in t.frames
    ensures var u := AfterResume(ResumeMco(t, mco), mco);
      && u.sys == Spec.Pushed(t.sys, mco) && u.cur == Some(mco)
      && u.frames == t.frames - {mco} && u.calls == t.calls + [Resume(mco)]
  {
    ResumeShape(t, mco);
    ResumeSys(t.sys, mco);
    WithdrawShape(t, mco);
  }

  /** A report on fd of anything besides writable space, such as data or the end of the stream, resumes exactly
      the coroutine that waits for fd. */
  lemma Wakes(t: Thread, mco: Id, fd: Fd, mask: Mask)
    requires Inv(t) && InMain(t) && WaitsFor(t, mco, fd) && mask & 0xFFFF_FFFB != 0
    ensures var u := Happen(t, Dispatch(fd, mask));
      && u.sys == Spec.Pushed(t.sys, mco) && u.cur == Some(mco)
      && u.frames == t.frames - {mco} && u.calls == t.calls + [Resume(mco)]
  {
    ArmedResumes(t, mco, fd, mask);
    WakeShape(Noted(t, fd, mask), mco);
  }

  lemma ArmedResumes(t: Thread, mco: Id, fd: Fd, mask: Mask)
    requires Inv(t) && WaitsFor(t, mco, fd) && mask & 0xFFFF_FFFB != 0
    ensures Resumes(t, fd, mask) && t.fdMcos[fd] == mco
    ensures Inv(Noted(t, fd, mask)) && Noted(t, fd, mask) == t.(records := Noted(t, fd, mask).records)
  {
    Armed(t, mco, fd);
    assert RegisteredOk(t, fd) && FrameOk(t, mco);
    ReadReportHandled(t.records[t.events[fd]].(reported := mask));
    NotedOk(t, fd, mask);
  }

  /** Resuming a coroutine that does not wait leaves all frames alone. */
  lemma IdleShape(t: Thread, mco: Id)
    requires Inv(t) && InMain(t) && mco in Coroutines(t.sys) && mco !in t.frames
    ensures var u := AfterResume(ResumeMco(t, mco), mco);
      u.frames == t.frames && (InMain(u) || Runs(u, mco))
  {
    ResumeShape(t, mco);
  }

  /** From t to u mco goes on waiting as before, or is resumed. */
  predicate Waits(t: Thread, u: Thread, mco: Id)
    requires mco in t.frames
  {
    !Runs(u, mco) ==> mco in u.frames && u.frames[mco] == t.frames[mco]
  }

  lemma ReportWaits(t: Thread, fd: Fd, mask: Mask, mco: Id)
    requires Inv(t) && InMain(t) && mco in t.frames
    ensures var u := Report(t, fd, mask);
      && Waits(t, u, mco)
      && (Runs(u, mco) ==> fd in t.fdMcos && t.fdMcos[fd] == mco && mco !in u.frames)
  {
    assert mco in Coroutines(t.sys);
    if fd in t.events {
      NotedOk(t, fd, mask);
      if Handled(t, fd, mask) && fd != t.wakeFd && fd in t.fdMcos {
        assert t.fdMcos[fd] in t.fdMcos.Values;
        ResumeWaits(Noted(t, fd, mask), t.fdMcos[fd], mco);
      }
    }
  }

  lemma ResumeWaits(t: Thread, next: Id, mco: Id)
    requires Inv(t) && InMain(t) && next in Coroutines(t.sys) && mco in t.frames
    ensures var u := AfterResume(ResumeMco(t, next), next);
      Waits(t, u, mco) && (Runs(u, mco) ==> next == mco && mco !in u.frames)
  {
    assert mco in Coroutines(t.sys);
    if next in t.frames {
      WakeShape(t, next);
    } else {
      IdleShape(t, next);
    }
  }

  /** The hook yields the current coroutine, and its locals stay in its frame. */
  lemma ParkShape(t: Thread, fd: Fd, event: Ev)
    requires t.cur.Some?
    ensures var u := Park(t, fd, event);
      u.sys == Engine(t, Yield(t.cur.value)).sys && u.frames == t.frames[t.cur.value := Frame(fd, event)]
  {
  }

  lemma WaitShape(t: Thread, fd: Fd, made: Ev)
    requires t.cur.Some?
    ensures var u := HookedWait(t, fd, made);
      && u.sys == Engine(t, Yield(t.cur.value)).sys
      && u.frames == t.frames[t.cur.value := Frame(fd, WaitedEvent(t, fd, made))]
  {
    ParkShape(Asking(t, fd, t.cur.value, made), fd, WaitedEvent(t, fd, made));
  }

  lemma WaitWaits(t: Thread, fd: Fd, made: Ev, mco: Id)
    requires Inv(t) && |t.sys.stack| == 2 && !Trips(t, fd) && mco in t.frames
    ensures Waits(t, HookedWait(t, fd, made), mco) && !Runs(HookedWait(t, fd, made), mco)
  {
    assert mco in Waiting(t.sys);
    if t.cur.Some? {
      WaitShape(t, fd, made);
      CurrentLeaves(t, fd, made);
    }
  }

  lemma LaunchWaits(t: Thread, made: Id, mco: Id)
    requires Inv(t) && InMain(t) && made !in t.sys.tasks && mco in t.frames
    ensures var u := Happen(t, Launch(made)); Waits(t, u, mco) && !Runs(u, mco)
  {
    CreateOk(t, made);
    assert mco in Waiting(t.sys);
    ResumeWaits(Engine(t, Create(made, false)), made, mco);
  }

  function UserAfter(t: Thread, h: Happening): set<Fd> {
    if h.Open? then t.user + {h.fd} else if h.Close? then t.user - {h.fd} else t.user
  }

  lemma StepUser(t: Thread, h: Happening)
    requires Possible(t, h)
    ensures Happen(t, h).user == UserAfter(t, h) && Happen(t, h).wakeFd == t.wakeFd
  {
  }

  /** h neither resumes a coroutine nor waits in a hook. */
  predicate Stays(h: Happening) {
    !h.Launch? && !h.Dispatch? && !h.Wait?
  }

  lemma FramesStay(t: Thread, h: Happening)
    requires Possible(t, h) && Stays(h)
    ensures Happen(t, h).frames == t.frames
  {
  }

  lemma StackStays(t: Thread, h: Happening)
    requires SysOk(t.sys) && Possible(t, h) && Stays(h)
    ensures Happen(t, h).sys.stack == t.sys.stack || Happen(t, h).sys.stack == [t.sys.main]
  {
  }

  /** What neither resumes nor waits leaves whoever waits alone. */
  lemma OthersStay(t: Thread, h: Happening, mco: Id)
    requires Inv(t) && Possible(t, h) && Stays(h) && mco in t.frames
    ensures Waits(t, Happen(t, h), mco) && !Runs(Happen(t, h), mco)
  {
    assert mco in Waiting(t.sys);
    FramesStay(t, h);
    StackStays(t, h);
  }

  lemma StepWaits(t: Thread, h: Happening, mco: Id)
    requires Inv(t) && Possible(t, h) && mco in t.frames
    ensures var u := Happen(t, h);
      && Waits(t, u, mco)
      && (Runs(u, mco) ==> h.Dispatch? && h.fd in t.fdMcos && t.fdMcos[h.fd] == mco && mco !in u.frames)
  {
    match h {
      case Dispatch(f, mask) => ReportWaits(t, f, mask, mco);
      case Wait(f, event, plain) =>
        if plain { assert mco in Waiting(t.sys); } else { WaitWaits(t, f, event, mco); }
      case Launch(made) => LaunchWaits(t, made, mco);
      case _ => OthersStay(t, h, mco);
    }
  }

  /** It goes on waiting until it is resumed or someone closes fd: nothing else wakes or disarms it. */
  lemma GoesOnWaiting(t: Thread, h: Happening, mco: Id, fd: Fd)
    requires Inv(t) && Possible(t, h) && WaitsFor(t, mco, fd)
    ensures var u := Happen(t, h);
      && (WaitsFor(u, mco, fd) <==> h != Close(fd) && !Runs(u, mco))
      && (Runs(u, mco) ==> h.Dispatch? && h.fd in t.fdMcos && t.fdMcos[h.fd] == mco)
  {
    StepUser(t, h);
    StepWaits(t, h, mco);
  }

  /** mco runs at some point of the run. */
  predicate RunsIn(t: Thread, hs: seq<Happening>, mco: Id)
    requires PossibleRun(t, hs)
    decreases |hs|
  {
    Runs(t, mco) || (hs != [] && RunsIn(Happen(t, hs[0]), hs[1..], mco))
  }

  lemma {:induction false} WaitsThroughRun(t: Thread, hs: seq<Happening>, mco: Id, fd: Fd)
    requires Inv(t) && PossibleRun(t, hs) && WaitsFor(t, mco, fd)
    requires Close(fd) !in hs && !RunsIn(t, hs, mco)
    ensures WaitsFor(Run(t, hs), mco, fd)
    decreases |hs|
  {
    if hs != [] {
      GoesOnWaiting(t, hs[0], mco, fd);
      HappenOk(t, hs[0]);
      assert hs[0] in hs;
      WaitsThroughRun(Happen(t, hs[0]), hs[1..], mco, fd);
    }
  }

  /** No lost wake-up: whatever happens after mco began to wait for fd, if nobody closed fd and mco has not
      run since, the next report on fd of anything besides writable space makes mco, and nobody else, run. */
  lemma NoLostWakeup(t: Thread, hs: seq<Happening>, mco: Id, fd: Fd, mask: Mask)
    requires Inv(t) && PossibleRun(t, hs) && WaitsFor(t, mco, fd)
    requires Close(fd) !in hs && !RunsIn(t, hs, mco)
    requires InMain(Run(t, hs)) && mask & 0xFFFF_FFFB != 0
    ensures var u := Run(t, hs); var v := Happen(u, Dispatch(fd, mask));
      && fd in u.interest && u.interest[fd] == READ_EVENT
      && mco in u.sys.tasks && v.sys == Spec.Pushed(u.sys, mco) && v.cur == Some(mco)
      && v.frames == u.frames - {mco}
  {
    WaitsThroughRun(t, hs, mco, fd);
    RunOk(t, hs);
    Armed(Run(t, hs), mco, fd);
    Wakes(Run(t, hs), mco, fd, mask);
  }

  /** A waiting coroutine whose descriptor was closed is not woken by any report on it. */
  lemma ClosedNeverWakes(t: Thread, mco: Id, fd: Fd, mask: Mask)
    requires Inv(t) && InMain(t) && WaitsOn(t, mco, fd) && fd !in t.user
    ensures Happen(t, Dispatch(fd, mask)) == t
  {
  }

  // ---- the current coroutine ----

  /** Control reaches a coroutine only by a resume from the thread's own flow, which makes it current. */
  lemma ResumedIsCurrent(t: Thread, h: Happening)
    requires Inv(t) && Possible(t, h) && InMain(t) && !InMain(Happen(t, h))
    ensures var u := Happen(t, h);
      && (h.Dispatch? || h.Launch?) && |u.sys.stack| == 2 && u.cur == Some(Spec.Top(u.sys))
      && (h.Dispatch? ==> h.fd in t.fdMcos && Spec.Top(u.sys) == t.fdMcos[h.fd])
  {
    match h {
      case Dispatch(fd, mask) => ReportCurrent(t, fd, mask);
      case Launch(made) => CreateOk(t, made); ResumeShape(Engine(t, Create(made, false)), made);
      case _ =>
    }
  }

  /** A launched coroutine runs at once, resumed by the thread's own flow. */
  lemma LaunchRuns(t: Thread, mco: Id)
    requires Inv(t) && Possible(t, Launch(mco))
    ensures var u := Happen(t, Launch(mco));
      u.sys.stack == [t.sys.main, mco] && u.sys.main == t.sys.main && u.cur == Some(mco) && mco in Coroutines(u.sys)
  {
    CreateOk(t, mco);
    ResumeShape(Engine(t, Create(mco, false)), mco);
  }

  lemma ReportCurrent(t: Thread, fd: Fd, mask: Mask)
    requires Inv(t) && InMain(t) && !InMain(Report(t, fd, mask))
    ensures var u := Report(t, fd, mask);
      |u.sys.stack| == 2 && fd in t.fdMcos && Spec.Top(u.sys) == t.fdMcos[fd] && u.cur == Some(t.fdMcos[fd])
  {
    NotedOk(t, fd, mask);
    assert t.fdMcos[fd] in t.fdMcos.Values;
    ResumeShape(Noted(t, fd, mask), t.fdMcos[fd]);
  }

  lemma CloseCurrent(t: Thread, fd: Fd)
    ensures var u := HookedClose(t, fd);
      u.sys == t.sys && u.cur == if t.cur == OwnerOf(t, fd) then None else t.cur
  {
  }

  /** A wait of the running coroutine suspends it or, if it is not current, changes nothing. */
  lemma WaitCurrent(t: Thread, fd: Fd, made: Ev)
    requires Inv(t) && |t.sys.stack| == 2 && !Trips(t, fd)
    ensures InMain(HookedWait(t, fd, made)) || HookedWait(t, fd, made) == t
  {
    WaitLeaves(t, fd, made);
  }

  /** As long as a coroutine runs, nothing but a close changes who is current. */
  lemma CurrentStep(t: Thread, h: Happening)
    requires Inv(t) && Possible(t, h) && |t.sys.stack| == 2
    ensures var u := Happen(t, h);
      |u.sys.stack| == 2 ==>
        && u.sys.stack == t.sys.stack
        && u.cur == if h.Close? && t.cur == OwnerOf(t, h.fd) then None else t.cur
  {
    match h {
      case Wait(fd, event, plain) => if !plain { WaitCurrent(t, fd, event); }
      case Close(fd) => CloseCurrent(t, fd);
      case _ => StackStays(t, h); CurStays(t, h);
    }
  }

  lemma CurStays(t: Thread, h: Happening)
    requires Possible(t, h) && Stays(h) && !h.Close?
    ensures Happen(t, h).cur == t.cur
  {
  }

  /** A running coroutine stops being current only by closing a descriptor that it owns. */
  lemma CurrentUntilOwnClose(t: Thread, h: Happening)
    requires Inv(t) && Possible(t, h) && |t.sys.stack| == 2 && t.cur == Some(Spec.Top(t.sys))
    ensures var u := Happen(t, h);
      |u.sys.stack| == 2 ==>
        && u.sys.stack == t.sys.stack
        && (u.cur == None <==> h.Close? && OwnerOf(t, h.fd) == t.cur)
        && (u.cur.Some? ==> u.cur == t.cur)
  {
    CurrentStep(t, h);
  }

  lemma CurrentLeaves(t: Thread, fd: Fd, made: Ev)
    requires SysOk(t.sys) && |t.sys.stack| == 2 && t.cur == Some(Spec.Top(t.sys))
    ensures InMain(HookedWait(t, fd, made)) && WaitsOn(HookedWait(t, fd, made), t.cur.value, fd)
    ensures HookedWait(t, fd, made).sys.main == t.sys.main
  {
    WaitShape(t, fd, made);
    LeaveSys(t.sys, false);
    assert Engine(t, Yield(t.cur.value)).sys == Spec.Popped(t.sys, false);
  }

  /** A hooked wait suspends the running coroutine exactly when it is current; otherwise the call goes
      straight to the system and blocks the thread. */
  lemma WaitLeaves(t: Thread, fd: Fd, made: Ev)
    requires SysOk(t.sys) && CurOk(t) && |t.sys.stack| == 2 && !Trips(t, fd)
    ensures var u := HookedWait(t, fd, made);
      if t.cur.Some? then InMain(u) && WaitsOn(u, t.cur.value, fd) && fd in u.hooked else u == t
  {
    if t.cur.Some? {
      CurrentLeaves(t, fd, made);
    }
  }

  // ---- the assertion of the hooked wait ----

  /** After a current coroutine closed a descriptor, the assertion of the hooked wait fails on exactly the
      descriptors of others and, if what it closed was its own, on its own remaining ones too. */
  lemma TripsAfterClose(t: Thread, closed: Fd, fd: Fd)
    requires Inv(t) && |t.sys.stack| == 2 && t.cur == Some(Spec.Top(t.sys)) && closed in t.user
    ensures Trips(HookedClose(t, closed), fd) <==>
      fd != closed && OwnerOf(t, fd).Some? && (OwnerOf(t, fd) != t.cur || OwnerOf(t, closed) == t.cur)
  {
    assert closed in t.events ==> RegisteredOk(t, closed);
  }

  /** c runs all through hs. */
  predicate KeepsRunning(t: Thread, hs: seq<Happening>, c: Id)
    requires PossibleRun(t, hs)
    decreases |hs|
  {
    t.sys.stack == [t.sys.main, c] && (hs == [] || KeepsRunning(Happen(t, hs[0]), hs[1..], c))
  }

  /** c closes a descriptor that it owns somewhere in hs. */
  predicate ClosesOwn(t: Thread, hs: seq<Happening>, c: Id)
    requires PossibleRun(t, hs)
    decreases |hs|
  {
    hs != [] && ((hs[0].Close? && OwnerOf(t, hs[0].fd) == Some(c)) || ClosesOwn(Happen(t, hs[0]), hs[1..], c))
  }

  /** While a coroutine runs, it is current until it closes a descriptor it owns, and not current after. */
  lemma {:induction false} CurrentInActivation(t: Thread, hs: seq<Happening>, c: Id)
    requires Inv(t) && PossibleRun(t, hs) && KeepsRunning(t, hs, c)
    ensures Run(t, hs).cur == if t.cur == None || ClosesOwn(t, hs, c) then None else Some(c)
    decreases |hs|
  {
    if hs != [] {
      CurrentStep(t, hs[0]);
      HappenOk(t, hs[0]);
      CurrentInActivation(Happen(t, hs[0]), hs[1..], c);
    }
  }

  /** Over the whole activation of c, from its resume on: the assertion of the hooked wait fails on exactly
      the descriptors of others and, once c has closed one of its own, on all that have an owner. */
  lemma TripsInActivation(t: Thread, hs: seq<Happening>, c: Id, fd: Fd)
    requires Inv(t) && PossibleRun(t, hs) && KeepsRunning(t, hs, c) && t.cur == Some(c)
    ensures var owner := OwnerOf(Run(t, hs), fd);
      Trips(Run(t, hs), fd) <==> owner.Some? && (owner != Some(c) || ClosesOwn(t, hs, c))
  {
    CurrentInActivation(t, hs, c);
  }

  /** c runs, is current and owns fd. */
  predicate RunsOwning(t: Thread, c: Id, fd: Fd) {
    Inv(t) && t.sys.stack == [t.sys.main, c] && t.cur == Some(c) && fd in t.fdMcos && t.fdMcos[fd] == c
  }

  /** hs can happen and leads from t to u. */
  predicate Leads(t: Thread, hs: seq<Happening>, u: Thread) {
    PossibleRun(t, hs) && Run(t, hs) == u
  }

  lemma LeadsOn(t: Thread, h: Happening, hs: seq<Happening>, u: Thread)
    requires Possible(t, h) && Leads(Happen(t, h), hs, u)
    ensures Leads(t, [h] + hs, u)
  {
    assert ([h] + hs)[1..] == hs;
  }

  lemma LeadsAfter(t: Thread, a: Happening, b: Happening, c: Happening)
    requires Possible(t, a) && Possible(Happen(t, a), b) && Possible(Happen(Happen(t, a), b), c)
    ensures Leads(t, [a, b, c], Happen(Happen(Happen(t, a), b), c))
  {
    var u := Happen(Happen(Happen(t, a), b), c);
    assert Leads(u, [], u);
    LeadsOn(Happen(Happen(t, a), b), c, [], u);
    assert [c] + [] == [c] && [b] + [c] == [b, c] && [a] + [b, c] == [a, b, c];
    LeadsOn(Happen(t, a), b, [c], u);
    LeadsOn(t, a, [b, c], u);
  }

  /** c does not run, is not over, owns fd and the kernel watches fd for reading. */
  predicate Ready(t: Thread, c: Id, fd: Fd) {
    && Inv(t) && InMain(t) && fd in t.fdMcos && t.fdMcos[fd] == c
    && c in Coroutines(t.sys) && t.sys.tasks[c].status != Spec.Finished
    && fd in t.interest && t.interest[fd] == READ_EVENT
  }

  lemma ReadyHandled(t: Thread, c: Id, fd: Fd)
    requires Ready(t, c, fd)
    ensures fd in t.events && fd != t.wakeFd && t.events[fd] in t.records && Handled(t, fd, POLLIN)
    ensures Inv(Noted(t, fd, POLLIN))
  {
    assert RegisteredOk(t, fd);
    ReadReportHandled(t.records[t.events[fd]].(reported := POLLIN));
    NotedOk(t, fd, POLLIN);
  }

  /** A readable report on its descriptor makes it run. */
  lemma DispatchRuns(t: Thread, c: Id, fd: Fd)
    requires Ready(t, c, fd)
    ensures var u := Report(t, fd, POLLIN);
      && RunsOwning(u, c, fd) && u.fdMcos == t.fdMcos
      && u.records.Keys == t.records.Keys && (c !in t.frames ==> u.interest == t.interest)
  {
    DispatchOk(t, fd, POLLIN);
    ReadyHandled(t, c, fd);
    ResumeShape(Noted(t, fd, POLLIN), c);
  }

  lemma SpawnReady(t: Thread, c: Id, fd: Fd, event: Ev)
    requires Inv(t) && InMain(t) && Possible(t, Spawn(fd, c, event, false))
    ensures var u := Happen(t, Spawn(fd, c, event, false));
      Ready(u, c, fd) && u.open == t.open && u.records.Keys == t.records.Keys + {event} && c !in u.frames
  {
    assert c !in Waiting(t.sys);
    var s := Engine(t, Create(c, false));
    CreateOk(t, c);
    AssignOk(s, fd, c, event, s.bound);
  }

  /** A coroutine gets to run when its descriptor is readable for the first time. */
  lemma FirstRun(t: Thread, c: Id, fd: Fd, event: Ev) returns (u: Thread)
    requires Inv(t) && InMain(t) && fd !in t.open && c !in t.sys.tasks && event !in t.records
    ensures Leads(t, [Open(fd), Spawn(fd, c, event, false), Dispatch(fd, POLLIN)], u)
    ensures RunsOwning(u, c, fd) && fd in u.interest && u.interest[fd] == READ_EVENT
    ensures u.open == t.open + {fd} && u.records.Keys == t.records.Keys + {event}
  {
    var t1 := Happen(t, Open(fd));
    OpenOk(t, fd);
    SpawnReady(t1, c, fd, event);
    var t2 := Happen(t1, Spawn(fd, c, event, false));
    DispatchRuns(t2, c, fd);
    u := Report(t2, fd, POLLIN);
    LeadsAfter(t, Open(fd), Spawn(fd, c, event, false), Dispatch(fd, POLLIN));
  }

  /** The running coroutine waits on a new descriptor, which becomes its own. */
  lemma WaitNew(t: Thread, c: Id, fd: Fd, event: Ev)
    requires Inv(t) && t.sys.stack == [t.sys.main, c] && t.cur == Some(c)
    requires fd in t.user && fd !in t.fdMcos && event !in t.records
    ensures var u := HookedWait(t, fd, event);
      && Ready(u, c, fd) && WaitsFor(u, c, fd) && u.fdMcos == t.fdMcos[fd := c]
      && u.interest == t.interest[fd := READ_EVENT]
  {
    WaitOk(t, fd, event);
    LeaveSys(t.sys, false);
    AssignOk(t, fd, c, event, t.bound);
    assert c in Waiting(HookedWait(t, fd, event).sys);
  }

  /** The running coroutine waits on a new descriptor and gets it. */
  lemma WaitsAndRuns(t: Thread, c: Id, own: Fd, fd: Fd, event: Ev) returns (u: Thread, v: Thread)
    requires RunsOwning(t, c, own) && fd in t.user && fd !in t.fdMcos && event !in t.records
    ensures u == HookedWait(t, fd, event) && InMain(u) && v == Report(u, fd, POLLIN)
    ensures RunsOwning(v, c, own) && RunsOwning(v, c, fd)
  {
    u := HookedWait(t, fd, event);
    WaitNew(t, c, fd, event);
    v := Report(u, fd, POLLIN);
    DispatchRuns(u, c, fd);
  }

  lemma SecondDescriptor(t: Thread, c: Id, own: Fd, fd: Fd, event: Ev) returns (u: Thread)
    requires RunsOwning(t, c, own) && fd !in t.open && event !in t.records
    ensures Leads(t, [Open(fd), Wait(fd, event, false), Dispatch(fd, POLLIN)], u)
    ensures RunsOwning(u, c, own) && RunsOwning(u, c, fd)
  {
    var t1 := Happen(t, Open(fd));
    OpenOk(t, fd);
    var t2;
    t2, u := WaitsAndRuns(t1, c, own, fd, event);
    LeadsAfter(t, Open(fd), Wait(fd, event, false), Dispatch(fd, POLLIN));
  }

  /** So the assertion of the hooked wait does not hold of all programs: a coroutine that waits on a second
      descriptor, closes one of the two and waits on the other again fails it. */
  lemma OwnCloseTrips(t: Thread, c: Id, fd1: Fd, ev1: Ev, fd2: Fd, ev2: Ev) returns (u: Thread, v: Thread)
    requires Inv(t) && InMain(t) && fd1 !in t.open && fd2 !in t.open && fd1 != fd2 && c !in t.sys.tasks
    requires ev1 !in t.records && ev2 !in t.records && ev1 != ev2
    ensures Leads(t, [Open(fd1), Spawn(fd1, c, ev1, false), Dispatch(fd1, POLLIN)], u)
    ensures Leads(u, [Open(fd2), Wait(fd2, ev2, false), Dispatch(fd2, POLLIN)], v)
    ensures Possible(v, Close(fd2)) && Trips(Happen(v, Close(fd2)), fd1)
  {
    u := FirstRun(t, c, fd1, ev1);
    v := SecondDescriptor(u, c, fd1, fd2, ev2);
    TripsAfterClose(v, fd2, fd1);
  }
}
