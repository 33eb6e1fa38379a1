/** What the scheduler promises over whole runs. */
module SchedulerRuns {
  import opened Prelude
  import opened EventRecords
  import opened Scheduler
  import opened SchedulerInvariant
  import Spec = PrivateStacks
  import McoEngine
  import EngineInvariant
  import Refinement

  // ---- the scheduler keeps the rules of the engine ----

  /** From t to u the engine was called as made says, and every call was legal. */
  predicate Calls(t: Thread, u: Thread, made: seq<Act>) {
    && Spec.Wf(t.sys) && u.calls == t.calls + made
    && Spec.LegalRun(t.sys, made) && u.sys == Spec.Run(t.sys, made)
  }

  lemma NoCall(t: Thread, u: Thread)
    requires Spec.Wf(t.sys) && u.sys == t.sys && u.calls == t.calls
    ensures Calls(t, u, [])
  {
  }

  lemma OneCall(t: Thread, u: Thread, a: Act)
    requires Spec.Wf(t.sys) && Spec.Legal(t.sys, a) && u.sys == Spec.Step(t.sys, a) && u.calls == t.calls + [a]
    ensures Calls(t, u, [a])
  {
  }

  lemma ThenCalls(t: Thread, u: Thread, v: Thread, a: seq<Act>, b: seq<Act>)
    requires Calls(t, u, a) && Calls(u, v, b)
    ensures Calls(t, v, a + b)
  {
    Spec.RunAppend(t.sys, a, b);
  }

  lemma ResumeCalls(t: Thread, mco: Id)
    requires SysOk(t.sys) && InMain(t) && mco in Coroutines(t.sys)
    ensures Calls(t, AfterResume(ResumeMco(t, mco), mco), [Resume(mco)])
  {
    ResumeSys(t.sys, mco);
    assert Spec.Wf(t.sys);
    var r := ResumeMco(t, mco);
    var u := AfterResume(r, mco);
    assert u.sys == r.sys && u.calls == r.calls;
    OneCall(t, u, Resume(mco));
  }

  lemma YieldCalls(t: Thread, u: Thread, fd: Fd, event: Ev)
    requires SysOk(t.sys) && |t.sys.stack| == 2 && t.cur == Some(Spec.Top(t.sys))
    requires u.sys == t.sys && u.calls == t.calls && u.cur == t.cur
    ensures Calls(t, Park(u, fd, event), [Yield(t.cur.value)])
  {
  }

  lemma WaitCalls(t: Thread, fd: Fd, event: Ev) returns (made: seq<Act>)
    requires Inv(t) && |t.sys.stack| == 2 && !Trips(t, fd)
    ensures Calls(t, HookedWait(t, fd, event), made)
    ensures made == if t.cur.Some? then [Yield(Spec.Top(t.sys))] else []
  {
    if t.cur == None {
      NoCall(t, HookedWait(t, fd, event));
      made := [];
    } else {
      made := [Yield(t.cur.value)];
      if fd in t.fdMcos {
        assert RegisteredOk(t, fd);
        var e := UpdateEvents(t.records[t.events[fd]], READ_EVENT);
        YieldCalls(t, Update(t, t.events[fd], e), fd, t.events[fd]);
      } else {
        var s := t.(fdMcos := t.fdMcos[fd := t.cur.value]);
        YieldCalls(t, Update(s, event, NewEvent(fd, READ_EVENT)), fd, event);
      }
    }
  }

  lemma ReportCalls(t: Thread, fd: Fd, mask: Mask) returns (made: seq<Act>)
    requires Inv(t) && InMain(t)
    ensures Calls(t, Report(t, fd, mask), made)
    ensures made == if Resumes(t, fd, mask) then [Resume(t.fdMcos[fd])] else []
  {
    made := [];
    if fd in t.events {
      assert RegisteredOk(t, fd);
      if Handled(t, fd, mask) && fd != t.wakeFd && fd in t.fdMcos {
        ResumeCalls(Noted(t, fd, mask), t.fdMcos[fd]);
        assert t.fdMcos[fd] in t.fdMcos.Values;
        made := [Resume(t.fdMcos[fd])];
      }
    }
  }

  lemma LaunchCalls(t: Thread, mco: Id) returns (made: seq<Act>)
    requires Inv(t) && Possible(t, Launch(mco))
    ensures Calls(t, Happen(t, Launch(mco)), made) && made == [Create(mco, false), Resume(mco)]
  {
    var s := Engine(t, Create(mco, false));
    CreateOk(t, mco);
    OneCall(t, s, Create(mco, false));
    ResumeCalls(s, mco);
    made := [Create(mco, false)] + [Resume(mco)];
    ThenCalls(t, s, Happen(t, Launch(mco)), [Create(mco, false)], [Resume(mco)]);
  }

  /** Opening, closing and destroying do not concern the engine. */
  lemma QuietCalls(t: Thread, h: Happening)
    requires Inv(t) && Possible(t, h) && (h.Open? || h.Close? || h.Destroy?)
    ensures Calls(t, Happen(t, h), [])
  {
  }

  /** The calls of the engine that h makes. */
  function CallsOf(t: Thread, h: Happening): seq<Act> {
    match h
    case Spawn(_, mco, _, _) => [Create(mco, false)]
    case Launch(mco) => [Create(mco, false), Resume(mco)]
    case Dispatch(fd, mask) => if Resumes(t, fd, mask) then [Resume(t.fdMcos[fd])] else []
    case Wait(_, _, plain) => if !plain && t.cur.Some? then [Yield(t.cur.value)] else []
    case Compute(live, scribble) => [Work(live, scribble)]
    case Return => [Finish]
    case Reclaim(mco) => [Free(mco)]
    case _ => []
  }

  lemma OtherCalls(t: Thread, h: Happening)
    requires Inv(t) && Possible(t, h) && (h.Spawn? || h.Compute? || h.Return? || h.Reclaim?)
    ensures Calls(t, Happen(t, h), CallsOf(t, h))
  {
    OneCall(t, Happen(t, h), CallsOf(t, h)[0]);
  }

  /** Every call that the scheduler makes of the engine is legal: its resumes come from the thread's own
      flow, only the running coroutine yields, and only what is not suspended is freed. It makes no others. */
  lemma HappenCalls(t: Thread, h: Happening) returns (made: seq<Act>)
    requires Inv(t) && Possible(t, h)
    ensures Calls(t, Happen(t, h), made) && made == CallsOf(t, h)
  {
    made := [];
    match h {
      case Launch(mco) => made := LaunchCalls(t, mco);
      case Dispatch(fd, mask) => made := ReportCalls(t, fd, mask);
      case Wait(fd, event, plain) => if !plain { made := WaitCalls(t, fd, event); }
      case Open(_) => QuietCalls(t, h);
      case Close(_) => QuietCalls(t, h);
      case Destroy(_) => QuietCalls(t, h);
      case _ => OtherCalls(t, h); made := CallsOf(t, h);
    }
  }

  lemma {:induction false} RunCalls(t: Thread, hs: seq<Happening>) returns (made: seq<Act>)
    requires Inv(t) && PossibleRun(t, hs)
    ensures Calls(t, Run(t, hs), made)
    decreases |hs|
  {
    if hs == [] {
      made := [];
    } else {
      var u := Happen(t, hs[0]);
      var first := HappenCalls(t, hs[0]);
      HappenOk(t, hs[0]);
      var rest := RunCalls(u, hs[1..]);
      ThenCalls(t, u, Run(t, hs), first, rest);
      made := first + rest;
    }
  }

  /** In every run the scheduler may be served by the engine with the one shared stack: the engine stays
      sound, and its coroutines are those with private stacks that the scheduler sees. */
  lemma EngineServes(main: Id, buffer: Bytes, live: Bytes, wakeFd: Fd, wakeEvent: Ev, hs: seq<Happening>)
    requires PossibleRun(Start(main, |buffer|, live, wakeFd, wakeEvent), hs)
    ensures var t := Run(Start(main, |buffer|, live, wakeFd, wakeEvent), hs);
      var s := McoEngine.Run(McoEngine.Init(main, buffer, live), t.calls);
      EngineInvariant.Inv(s) && EngineInvariant.Abs(s) == t.sys
  {
    var t0 := Start(main, |buffer|, live, wakeFd, wakeEvent);
    StartOk(main, |buffer|, live, wakeFd, wakeEvent);
    var made := RunCalls(t0, hs);
    assert Run(t0, hs).calls == [] + made == made;
    Refinement.InitRefines(main, buffer, live);
    Refinement.RunRefines(McoEngine.Init(main, buffer, live), made);
  }
}
