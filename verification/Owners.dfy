/** Who owns a descriptor and which coroutine is current, as the history of the thread has it. */
module Owners {
  import opened Prelude
  import opened EventRecords
  import opened Scheduler
  import opened SchedulerInvariant
  import opened Wakeups
  import Spec = PrivateStacks

  /** The owner of fd after h, which happens in t: the coroutine it was spawned for or that first waited on it,
      until it is closed. */
  function OwnerAfter(t: Thread, h: Happening, fd: Fd): Option<Id> {
    if h.Spawn? && h.fd == fd then Some(h.mco)
    else if h.Wait? && !h.plain && h.fd == fd && OwnerOf(t, fd) == None then t.cur
    else if h == Close(fd) then None
    else OwnerOf(t, fd)
  }

  /** The current coroutine after h: the last one resumed from the thread's own flow, until the running one closes
      what the current one owns. */
  function CurrentAfter(t: Thread, h: Happening): Option<Id> {
    match h
    case Launch(mco) => Some(mco)
    case Dispatch(fd, mask) => if Resumes(t, fd, mask) then OwnerOf(t, fd) else t.cur
    case Close(fd) => if OwnerOf(t, fd) == t.cur then None else t.cur
    case _ => t.cur
  }

  lemma ReportOwners(t: Thread, fd: Fd, mask: Mask)
    ensures var u := Report(t, fd, mask);
      u.fdMcos == t.fdMcos && u.cur == if Resumes(t, fd, mask) then OwnerOf(t, fd) else t.cur
  {
  }

  lemma WaitOwners(t: Thread, fd: Fd, made: Ev)
    ensures var u := HookedWait(t, fd, made);
      && u.cur == t.cur
      && u.fdMcos == if t.cur.Some? && fd !in t.fdMcos then t.fdMcos[fd := t.cur.value] else t.fdMcos
  {
    if t.cur.Some? {
      assert Park(Asking(t, fd, t.cur.value, made), fd, WaitedEvent(t, fd, made)).cur == t.cur;
    }
  }

  /** Nothing else changes the owner of a descriptor or the current coroutine. */
  lemma OwnersChange(t: Thread, h: Happening, fd: Fd)
    requires Possible(t, h)
    ensures OwnerOf(Happen(t, h), fd) == OwnerAfter(t, h, fd) && Happen(t, h).cur == CurrentAfter(t, h)
  {
    match h {
      case Dispatch(f, mask) => ReportOwners(t, f, mask);
      case Wait(f, made, plain) => if !plain { WaitOwners(t, f, made); }
      case _ =>
    }
  }
}
