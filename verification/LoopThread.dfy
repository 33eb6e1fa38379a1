/** base/SysapiHook.cpp, base/Mcosops.h and the loop itself: an EventLoop and the coroutines of its thread, which
    all run on the shared buffer. Every method is proved to act as the function of Scheduler it implements. */
module LoopThreads {
  import opened Prelude
  import opened EventRecords
  import opened Scheduler
  import opened SchedulerInvariant
  import opened McoRoutines
  import opened Continuations
  import opened EventLoops
  import Spec = PrivateStacks

  /** What a hooked wait relies on. */
  predicate WaitReady(t: Thread, fd: Fd, made: Ev) {
    && made !in t.records && !Trips(t, fd) && (fd !in t.fdMcos ==> fd !in t.events)
    && (t.cur.Some? ==> Spec.Wf(t.sys) && Spec.Legal(t.sys, Act.Yield(t.cur.value)))
  }

  /** The resume that a report leads to is legal. */
  lemma ReportReady(t: Thread, fd: Fd, mask: Mask)
    requires Inv(t) && InMain(t)
    ensures Served(t, fd, mask).sys == t.sys && (fd in t.events ==> FdAgrees(t, fd))
    ensures fd in t.fdMcos ==> Spec.Wf(t.sys) && Spec.Legal(t.sys, Act.Resume(t.fdMcos[fd]))
    ensures Served(t, fd, mask).fdMcos == t.fdMcos
  {
    assert fd in t.events ==> RegisteredOk(t, fd);
    if fd in t.fdMcos {
      assert t.fdMcos[fd] in t.fdMcos.Values;
      ResumeSys(t.sys, t.fdMcos[fd]);
    }
  }

  class LoopThread {
    const loop: EventLoop
    const coroutines: Coroutines

    /** What McoPool holds is allocated. */
    ghost predicate Linked()
      reads loop.pool, coroutines.engine`heap
    {
      && (loop.pool.cur != null ==> coroutines.Known(loop.pool.cur))
      && (forall fd | fd in loop.pool.fdMcos :: coroutines.Known(loop.pool.fdMcos[fd]))
    }

    ghost predicate Valid()
      reads loop, loop.heap.Values, loop.pool, loop.kernel
      reads coroutines.engine, coroutines.engine.heap.Values, coroutines.engine.commonStack
    {
      loop.Ok() && coroutines.Valid() && Linked() && loop.state.sys == coroutines.Sys()
    }

    constructor (main: Id, size: nat, live: Bytes, wakeFd: Fd, wakeEvent: Ev)
      ensures Valid() && loop.state == Start(main, size, live, wakeFd, wakeEvent)
      ensures loop.kernel.interest == map[wakeFd := READ_EVENT]
    {
      loop := new EventLoop(main, size, live, wakeFd, wakeEvent);
      coroutines := new Coroutines(main, size, live);
    }

    /** The objects are those of before, or new. */
    twostate predicate NewOnly()
      reads loop`heap, coroutines.engine`heap
    {
      loop.NewOnly() && coroutines.NewOnly()
    }

    ghost function Objects(): set<object>
      reads loop`heap, coroutines.engine`heap
    {
      loop.Footprint() + coroutines.Footprint()
    }

    /** The same as NewOnly, in the terms of modifies clauses. */
    twostate predicate SameObjects()
      reads loop`heap, coroutines.engine`heap
    {
      forall o | o in Objects() :: o in old(Objects()) || fresh(o)
    }

    twostate lemma NewMeansSame()
      requires NewOnly()
      ensures SameObjects()
    {
    }

    /** The loop and the engine share no object. */
    lemma Apart()
      ensures forall o | o in loop.Footprint() :: o !in coroutines.Footprint()
    {
    }

    // ---- Mcosops ----

    /** Mcosops::Resume up to the resume. */
    method MakeCurrent(mco: McoRoutine)
      requires Valid() && coroutines.Known(mco)
      modifies loop`state, loop.pool`cur
      ensures NewOnly()
      ensures loop.Ok() && coroutines.Valid() && Linked()
      ensures loop.state == ResumeMco(old(loop.state), mco.id)
    {
      loop.MakeCurrent(mco);
    }

    method EngineResume(mco: McoRoutine)
      requires loop.Ok() && coroutines.Valid() && Linked() && coroutines.Known(mco)
      requires Spec.Wf(coroutines.Sys()) && Spec.Legal(coroutines.Sys(), Act.Resume(mco.id))
      modifies coroutines.Footprint()
      ensures NewOnly()
      ensures loop.Ok() && coroutines.Valid() && Linked() && coroutines.Known(mco) && unchanged(loop)
      ensures coroutines.Sys() == Spec.Step(old(coroutines.Sys()), Act.Resume(mco.id))
    {
      Apart();
      coroutines.Resume(mco);
    }

    /** mco got control, or Resume returned. */
    method GoOn(mco: McoRoutine, runs: bool)
      requires Valid() && runs == Runs(loop.state, mco.id)
      modifies loop.Footprint()
      ensures NewOnly()
      ensures Valid() && loop.state == AfterResume(old(loop.state), mco.id)
    {
      Apart();
      loop.GoOn(mco.id, runs);
    }

    /** Mcosops::Resume */
    method Resume(mco: McoRoutine)
      requires Valid() && coroutines.Known(mco)
      requires Spec.Wf(loop.state.sys) && Spec.Legal(loop.state.sys, Act.Resume(mco.id))
      modifies loop`state, loop.pool`cur, coroutines.Footprint()
      ensures SameObjects()
      ensures Valid() && coroutines.Known(mco)
      ensures loop.state == ResumeMco(old(loop.state), mco.id)
    {
      MakeCurrent(mco);
      EngineResume(mco);
      NewMeansSame();
    }

    /** Mcosops::Resume, as the thread's own flow calls it, and what mco does first. */
    method Continue(mco: McoRoutine)
      requires Valid() && coroutines.Known(mco)
      requires Spec.Wf(loop.state.sys) && Spec.Legal(loop.state.sys, Act.Resume(mco.id))
      modifies Objects()
      ensures SameObjects()
      ensures Valid() && loop.state == AfterResume(ResumeMco(old(loop.state), mco.id), mco.id)
    {
      Resume(mco);
      Arrive(mco);
    }

    method Arrive(mco: McoRoutine)
      requires Valid() && coroutines.Known(mco)
      modifies loop.Footprint()
      ensures SameObjects()
      ensures Valid() && loop.state == AfterResume(old(loop.state), mco.id)
    {
      var runs := coroutines.Runs(mco);
      GoOn(mco, runs);
      NewMeansSame();
    }

    // ---- the loop ----

    method Serve(fd: Fd, mask: Mask) returns (mco: McoRoutine?)
      requires Valid() && (fd in loop.state.events ==> FdAgrees(loop.state, fd))
      modifies loop.Footprint()
      ensures SameObjects()
      ensures Valid()
      ensures loop.state == Served(old(loop.state), fd, mask)
      ensures mco != null <==> Resumes(old(loop.state), fd, mask)
      ensures mco != null ==> coroutines.Known(mco) && fd in loop.state.fdMcos && mco.id == loop.state.fdMcos[fd]
    {
      Apart();
      mco := loop.Serve(fd, mask);
      NewMeansSame();
    }

    /** The body of the loop: one report of epoll_wait. */
    method HandleReport(fd: Fd, mask: Mask)
      requires Valid() && Inv(loop.state) && InMain(loop.state)
      modifies Objects()
      ensures SameObjects()
      ensures Valid() && loop.state == Report(old(loop.state), fd, mask)
    {
      ReportReady(loop.state, fd, mask);
      var mco := Serve(fd, mask);
      if mco != null {
        Continue(mco);
      }
    }

    // ---- the hooks ----

    method EngineYield(mco: McoRoutine)
      requires loop.Ok() && coroutines.Valid() && Linked() && coroutines.Known(mco)
      requires Spec.Wf(coroutines.Sys()) && Spec.Legal(coroutines.Sys(), Act.Yield(mco.id))
      modifies coroutines.Footprint()
      ensures NewOnly()
      ensures loop.Ok() && coroutines.Valid() && Linked() && unchanged(loop)
      ensures coroutines.Sys() == Spec.Step(old(coroutines.Sys()), Act.Yield(mco.id))
    {
      Apart();
      coroutines.Yield(mco);
    }

    method Prepare(fd: Fd, made: Ev)
      requires Valid() && made !in loop.state.records && loop.pool.cur != null
      requires fd !in loop.state.fdMcos ==> fd !in loop.state.events
      modifies loop.Footprint()
      ensures NewOnly()
      ensures loop.Ok() && coroutines.Valid() && Linked() && unchanged(loop.pool`cur)
      ensures loop.state == Scheduler.HookedWait(old(loop.state), fd, made)
      ensures coroutines.Sys() == old(loop.state.sys)
    {
      Apart();
      loop.HookedWait(fd, made);
    }

    /** read and accept of the current coroutine on a descriptor that blocks. */
    method HookedWait(fd: Fd, made: Ev)
      requires Valid() && made !in loop.state.records && loop.pool.cur != null
      requires fd !in loop.state.fdMcos ==> fd !in loop.state.events
      requires loop.state.cur == Some(loop.pool.cur.id)
      requires Spec.Wf(loop.state.sys) && Spec.Legal(loop.state.sys, Act.Yield(loop.pool.cur.id))
      modifies Objects()
      ensures SameObjects()
      ensures Valid() && loop.state == Scheduler.HookedWait(old(loop.state), fd, made)
    {
      var mco := loop.pool.cur;
      Prepare(fd, made);
      EngineYield(mco);
      NewMeansSame();
    }

    /** What McoPool holds for fd and as current is what its state says. */
    lemma OwnerIsCurrent(fd: Fd)
      requires Valid()
      ensures loop.OneObject(fd) && loop.state.cur == IdOf(loop.pool.cur)
      ensures fd in loop.state.fdMcos <==> fd in loop.pool.fdMcos
      ensures fd in loop.state.fdMcos ==> loop.pool.fdMcos[fd].id == loop.state.fdMcos[fd]
    {
      assert InLoop(0);
    }

    /** read and accept, up to their Yield if they suspend, or up to the call of the real one. */
    method Read(fd: Fd, nonblock: bool, made: Ev)
      requires Valid() && (nonblock || WaitReady(loop.state, fd, made))
      modifies Objects()
      ensures SameObjects()
      ensures Valid()
      ensures loop.state == if nonblock then old(loop.state) else Scheduler.HookedWait(old(loop.state), fd, made)
    {
      if nonblock {
        return;
      }
      OwnerIsCurrent(fd);
      var mco := loop.pool.GetMcoRoutine(fd);
      if mco != null {
        // the assertion in read and accept
        assert mco == loop.pool.cur;
      }
      if loop.pool.cur != null {
        HookedWait(fd, made);
      }
    }

    /** close */
    method Close(fd: Fd)
      requires Valid() && (fd in loop.state.events ==> FdAgrees(loop.state, fd))
      modifies loop.Footprint()
      ensures SameObjects()
      ensures Valid() && loop.state == HookedClose(old(loop.state), fd)
    {
      Apart();
      OwnerIsCurrent(fd);
      loop.Close(fd);
      NewMeansSame();
    }

    // ---- what else happens on the thread ----

    method EngineCreate(id: Id) returns (mco: McoRoutine)
      requires Valid() && Spec.Wf(loop.state.sys) && Spec.Legal(loop.state.sys, Act.Create(id, false))
      modifies coroutines.Footprint()
      ensures NewOnly()
      ensures loop.Ok() && coroutines.Valid() && Linked() && coroutines.Known(mco) && mco.id == id && unchanged(loop)
      ensures coroutines.Sys() == Spec.Step(old(loop.state.sys), Act.Create(id, false))
    {
      Apart();
      mco := coroutines.Create(id);
    }

    method EngineFinish()
      requires loop.Ok() && coroutines.Valid() && Linked()
      requires Spec.Wf(coroutines.Sys()) && Spec.Legal(coroutines.Sys(), Act.Finish)
      modifies coroutines.Footprint()
      ensures NewOnly()
      ensures loop.Ok() && coroutines.Valid() && Linked() && unchanged(loop)
      ensures coroutines.Sys() == Spec.Step(old(coroutines.Sys()), Act.Finish)
    {
      Apart();
      coroutines.Return();
    }

    method EngineWork(live: Bytes, scribble: Bytes)
      requires loop.Ok() && coroutines.Valid() && Linked()
      requires Spec.Wf(coroutines.Sys()) && Spec.Legal(coroutines.Sys(), Act.Work(live, scribble))
      modifies coroutines.Footprint()
      ensures NewOnly()
      ensures loop.Ok() && coroutines.Valid() && Linked() && unchanged(loop)
      ensures coroutines.Sys() == Spec.Step(old(coroutines.Sys()), Act.Work(live, scribble))
    {
      Apart();
      coroutines.Work(live, scribble);
    }

    method EngineFree(mco: McoRoutine)
      requires loop.Ok() && coroutines.Valid() && Linked() && coroutines.Known(mco)
      requires Spec.Wf(coroutines.Sys()) && Spec.Legal(coroutines.Sys(), Act.Free(mco.id))
      requires loop.pool.cur != null ==> loop.pool.cur.id != mco.id
      requires forall fd | fd in loop.pool.fdMcos :: loop.pool.fdMcos[fd].id != mco.id
      modifies coroutines.Footprint()
      ensures NewOnly()
      ensures loop.Ok() && coroutines.Valid() && Linked() && unchanged(loop)
      ensures coroutines.Sys() == Spec.Step(old(coroutines.Sys()), Act.Free(mco.id))
    {
      Apart();
      coroutines.Free(mco);
    }

    /** The loop notes a call of the engine. */
    ghost method Told(a: Act, loopMco: Option<Id>, bound: map<Id, Ev>)
      requires loop.Ok() && coroutines.Valid() && Linked()
      modifies loop`state
      ensures NewOnly()
      ensures loop.Ok() && coroutines.Valid() && Linked() && unchanged(coroutines.engine`heap, coroutines.engine`state)
      ensures loop.state == Engine(old(loop.state).(loopMco := loopMco, bound := bound), a)
    {
      loop.Called(a, loopMco, bound);
    }

    method Open(fd: Fd)
      requires Valid()
      modifies loop.Footprint()
      ensures SameObjects()
      ensures Valid()
      ensures loop.state == old(loop.state).(open := old(loop.state.open) + {fd}, user := old(loop.state.user) + {fd},
                                             openings := old(loop.state.openings) + multiset{fd})
    {
      Apart();
      loop.Open(fd);
      NewMeansSame();
    }

    /** The loop is told of mco, made for fd; s is the state with its creation recorded. */
    method Register(fd: Fd, mco: McoRoutine, made: Ev, ghost bound: map<Id, Ev>, ghost s: Thread)
      requires loop.Ok() && coroutines.Valid() && Linked() && coroutines.Known(mco)
      requires made !in loop.state.records && fd !in loop.state.events
      requires s == Engine(loop.state, Act.Create(mco.id, false)).(bound := bound)
      modifies loop.Footprint()
      ensures NewOnly()
      ensures loop.Ok() && coroutines.Valid() && Linked() && unchanged(coroutines.engine`state)
      ensures loop.state == Taken(s, fd, mco.id, made)
    {
      Apart();
      loop.Spawn(fd, mco, made, bound);
    }

    /** As TcpServer does for a new descriptor. */
    method Spawn(fd: Fd, id: Id, made: Ev, ghost bound: map<Id, Ev>)
      requires Valid() && made !in loop.state.records && fd !in loop.state.events
      requires Spec.Wf(loop.state.sys) && Spec.Legal(loop.state.sys, Act.Create(id, false))
      modifies Objects()
      ensures SameObjects()
      ensures Valid()
      ensures loop.state == Taken(Engine(old(loop.state), Act.Create(id, false)).(bound := bound), fd, id, made)
    {
      ghost var s := Engine(loop.state, Act.Create(id, false)).(bound := bound);
      var mco := EngineCreate(id);
      Register(fd, mco, made, bound, s);
      NewMeansSame();
    }

    method Make(id: Id) returns (mco: McoRoutine)
      requires Valid() && Spec.Wf(loop.state.sys) && Spec.Legal(loop.state.sys, Act.Create(id, false))
      modifies loop`state, coroutines.Footprint()
      ensures SameObjects()
      ensures Valid() && coroutines.Known(mco) && mco.id == id
      ensures loop.state == Engine(old(loop.state), Act.Create(id, false))
    {
      mco := EngineCreate(id);
      Told(Act.Create(id, false), loop.state.loopMco, loop.state.bound);
      NewMeansSame();
    }

    /** The thread's own flow makes a coroutine and resumes it. */
    method Launch(id: Id, ghost s: Thread)
      requires Valid() && Spec.Wf(loop.state.sys) && Spec.Legal(loop.state.sys, Act.Create(id, false))
      requires s == Engine(loop.state, Act.Create(id, false))
      requires Spec.Wf(s.sys) && Spec.Legal(s.sys, Act.Resume(id))
      modifies Objects()
      ensures SameObjects()
      ensures Valid() && loop.state == AfterResume(ResumeMco(s, id), id)
    {
      var mco := Make(id);
      Continue(mco);
    }

    /** The callback of the running coroutine returns. */
    method Return()
      requires Valid() && Spec.Wf(loop.state.sys) && Spec.Legal(loop.state.sys, Act.Finish)
      modifies Objects()
      ensures SameObjects()
      ensures Valid() && loop.state == Engine(old(loop.state).(loopMco := None), Act.Finish)
    {
      Told(Act.Finish, None, loop.state.bound);
      EngineFinish();
      NewMeansSame();
    }

    method Compute(live: Bytes, scribble: Bytes)
      requires Valid() && Spec.Wf(loop.state.sys) && Spec.Legal(loop.state.sys, Act.Work(live, scribble))
      modifies Objects()
      ensures SameObjects()
      ensures Valid() && loop.state == Engine(old(loop.state), Act.Work(live, scribble))
    {
      Told(Act.Work(live, scribble), loop.state.loopMco, loop.state.bound);
      EngineWork(live, scribble);
      NewMeansSame();
    }

    /** The destructor of Events, when the last reference is dropped. */
    method Destroy(id: Ev)
      requires Valid() && Possible(loop.state, Happening.Destroy(id))
      modifies loop.Footprint()
      ensures SameObjects()
      ensures Valid() && loop.state == Happen(old(loop.state), Happening.Destroy(id))
    {
      Apart();
      loop.Destroy(id);
      NewMeansSame();
    }

    lemma PoolAgrees()
      requires Valid()
      ensures loop.state.cur == IdOf(loop.pool.cur)
      ensures forall fd | fd in loop.pool.fdMcos ::
        fd in loop.state.fdMcos && loop.pool.fdMcos[fd].id == loop.state.fdMcos[fd]
    {
      assert InLoop(0);
    }

    method Drop(mco: McoRoutine)
      requires Valid() && coroutines.Known(mco)
      requires loop.pool.cur != null ==> loop.pool.cur.id != mco.id
      requires forall fd | fd in loop.pool.fdMcos :: loop.pool.fdMcos[fd].id != mco.id
      requires Spec.Wf(loop.state.sys) && Spec.Legal(loop.state.sys, Act.Free(mco.id))
      modifies Objects()
      ensures SameObjects()
      ensures Valid()
      ensures loop.state == Engine(old(loop.state).(bound := old(loop.state.bound) - {mco.id}), Act.Free(mco.id))
    {
      Told(Act.Free(mco.id), loop.state.loopMco, loop.state.bound - {mco.id});
      EngineFree(mco);
      NewMeansSame();
    }

    /** The destructor of Continuation, when the last reference is dropped. */
    method Reclaim(id: Id)
      requires Valid() && !McoHeld(loop.state, id) && id in loop.state.sys.tasks
      requires Spec.Wf(loop.state.sys) && Spec.Legal(loop.state.sys, Act.Free(id))
      modifies Objects()
      ensures SameObjects()
      ensures Valid()
      ensures loop.state == Engine(old(loop.state).(bound := old(loop.state.bound) - {id}), Act.Free(id))
    {
      PoolAgrees();
      assert forall fd | fd in loop.pool.fdMcos :: loop.state.fdMcos[fd] in loop.state.fdMcos.Values;
      var mco := coroutines.Find(id);
      Drop(mco);
    }

    /** Any happening. */
    method Perform(h: Happening)
      requires Valid() && Inv(loop.state) && Possible(loop.state, h)
      modifies Objects()
      ensures SameObjects()
      ensures Valid() && loop.state == Happen(old(loop.state), h)
    {
      Ready(loop.state, h);
      match h {
        case Open(fd) => Open(fd);
        case Spawn(fd, mco, event, binds) =>
          Spawn(fd, mco, event, if binds then loop.state.bound[mco := event] else loop.state.bound);
        case Launch(mco) => Launch(mco, Engine(loop.state, Act.Create(mco, false)));
        case Dispatch(fd, mask) => HandleReport(fd, mask);
        case Wait(fd, event, plain) => Read(fd, plain, event);
        case Close(fd) => Close(fd);
        case Compute(live, scribble) => Compute(live, scribble);
        case Return => Return();
        case Reclaim(mco) => Reclaim(mco);
        case Destroy(event) => Destroy(event);
      }
    }

    /** What happens from one report to the next. */
    method PerformAll(hs: seq<Happening>)
      requires Valid() && Inv(loop.state) && PossibleRun(loop.state, hs)
      modifies Objects()
      ensures SameObjects()
      ensures Valid() && Inv(loop.state) && loop.state == Run(old(loop.state), hs)
    {
      ghost var s := loop.state;
      var i := 0;
      while i < |hs|
        invariant i <= |hs| && SameObjects() && Valid() && Inv(loop.state)
        invariant PossibleRun(loop.state, hs[i..]) && Run(loop.state, hs[i..]) == Run(s, hs)
      {
        RunStep(loop.state, hs, i);
        Perform(hs[i]);
        i := i + 1;
      }
    }

    /** One turn of the loop below. */
    method Turn(occur: seq<(Fd, Mask)>, activity: seq<seq<Happening>>, i: nat)
      requires Valid() && Inv(loop.state) && |activity| == |occur| && i < |occur|
      requires PossibleRun(loop.state, Trace(occur[i..], activity[i..]))
      modifies Objects()
      ensures SameObjects()
      ensures Valid() && Inv(loop.state) && PossibleRun(loop.state, Trace(occur[i + 1..], activity[i + 1..]))
      ensures Run(loop.state, Trace(occur[i + 1..], activity[i + 1..]))
           == Run(old(loop.state), Trace(occur[i..], activity[i..]))
    {
      TraceStep(loop.state, occur, activity, i);
      HandleReport(occur[i].0, occur[i].1);
      PerformAll(activity[i]);
    }

    /** EventLoop::loop for the reports of one epoll_wait. After each, the coroutine that it resumed, or whoever
        else runs, does as it likes until control is back; then the loop goes on with the next. */
    method Loop(occur: seq<(Fd, Mask)>, activity: seq<seq<Happening>>)
      requires Valid() && Inv(loop.state) && |activity| == |occur|
      requires PossibleRun(loop.state, Trace(occur, activity))
      modifies Objects()
      ensures SameObjects()
      ensures Valid() && Inv(loop.state) && loop.state == Run(old(loop.state), Trace(occur, activity))
    {
      ghost var s := loop.state;
      var i := 0;
      while i < |occur|
        invariant i <= |occur| && SameObjects() && Valid() && Inv(loop.state)
        invariant PossibleRun(loop.state, Trace(occur[i..], activity[i..]))
        invariant Run(loop.state, Trace(occur[i..], activity[i..])) == Run(s, Trace(occur, activity))
      {
        Turn(occur, activity, i);
        i := i + 1;
      }
    }
  }

  /** A row of reports, each followed by what happens until the loop takes up the next. */
  function Trace(occur: seq<(Fd, Mask)>, activity: seq<seq<Happening>>): seq<Happening>
    requires |activity| == |occur|
  {
    if occur == [] then []
    else [Dispatch(occur[0].0, occur[0].1)] + activity[0] + Trace(occur[1..], activity[1..])
  }

  lemma RunStep(t: Thread, hs: seq<Happening>, i: nat)
    requires Inv(t) && i < |hs| && PossibleRun(t, hs[i..])
    ensures Possible(t, hs[i]) && Inv(Happen(t, hs[i]))
    ensures PossibleRun(Happen(t, hs[i]), hs[i + 1..])
    ensures Run(Happen(t, hs[i]), hs[i + 1..]) == Run(t, hs[i..])
  {
    HappenOk(t, hs[i]);
    assert hs[i..][1..] == hs[i + 1..];
  }

  lemma {:induction false} RunSplit(t: Thread, a: seq<Happening>, b: seq<Happening>)
    requires PossibleRun(t, a + b)
    ensures PossibleRun(t, a) && PossibleRun(Run(t, a), b) && Run(Run(t, a), b) == Run(t, a + b)
    decreases |a|
  {
    if a == [] {
      assert a + b == b;
    } else {
      assert (a + b)[0] == a[0] && (a + b)[1..] == a[1..] + b;
      RunSplit(Happen(t, a[0]), a[1..], b);
    }
  }

  lemma TraceStep(t: Thread, occur: seq<(Fd, Mask)>, activity: seq<seq<Happening>>, i: nat)
    requires |activity| == |occur| && i < |occur| && Inv(t) && PossibleRun(t, Trace(occur[i..], activity[i..]))
    ensures InMain(t) && Inv(Report(t, occur[i].0, occur[i].1))
    ensures var u := Report(t, occur[i].0, occur[i].1);
      && PossibleRun(u, activity[i]) && PossibleRun(Run(u, activity[i]), Trace(occur[i + 1..], activity[i + 1..]))
      && Run(Run(u, activity[i]), Trace(occur[i + 1..], activity[i + 1..])) == Run(t, Trace(occur[i..], activity[i..]))
  {
    var rest := Trace(occur[i + 1..], activity[i + 1..]);
    var h := Dispatch(occur[i].0, occur[i].1);
    assert occur[i..][1..] == occur[i + 1..] && activity[i..][1..] == activity[i + 1..];
    assert Trace(occur[i..], activity[i..]) == [h] + (activity[i] + rest);
    assert ([h] + (activity[i] + rest))[1..] == activity[i] + rest;
    HappenOk(t, h);
    RunSplit(Happen(t, h), activity[i], rest);
  }

  /** What the methods ask for holds whenever h is possible. */
  lemma Ready(t: Thread, h: Happening)
    requires Inv(t) && Possible(t, h)
    ensures Spec.Wf(t.sys)
    ensures h.Spawn? ==> h.fd !in t.events && Spec.Legal(t.sys, Act.Create(h.mco, false))
    ensures h.Launch? ==>
      && Spec.Legal(t.sys, Act.Create(h.mco, false))
      && var s := Engine(t, Act.Create(h.mco, false)); Spec.Wf(s.sys) && Spec.Legal(s.sys, Act.Resume(h.mco))
    ensures h.Wait? && !h.plain ==> WaitReady(t, h.fd, h.event)
    ensures h.Close? && h.fd in t.events ==> FdAgrees(t, h.fd)
    ensures h.Return? ==> Spec.Legal(t.sys, Act.Finish)
    ensures h.Reclaim? ==> Spec.Legal(t.sys, Act.Free(h.mco))
  {
  }
}
