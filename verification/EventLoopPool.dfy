/** base/EventLoopPool.cpp: the loops of a process, and the round robin over the worker loops. */
module EventLoopPools {
  import opened Prelude

  type Tid = int

  /** The address of an EventLoop. */
  type Loop = nat

  datatype Pool = Pool(mainLoop: Option<Loop>, loops: map<Tid, Loop>, nextLoops: seq<Loop>, next: nat)

  predicate Accepts(p: Pool, tid: Tid, loop: Option<Loop>) {
    loop.Some? && tid !in p.loops
  }

  function Add(p: Pool, tid: Tid, loop: Option<Loop>, isMain: bool): Pool {
    if !Accepts(p, tid, loop) then p
    else
      var q := p.(loops := p.loops[tid := loop.value]);
      if isMain then q.(mainLoop := loop) else q.(nextLoops := p.nextLoops + [loop.value])
  }

  /** The position that the next call of getNextLoop picks. */
  function Pick(p: Pool): nat {
    if |p.nextLoops| <= p.next then 0 else p.next
  }

  function Advance(p: Pool): Pool {
    if p.nextLoops == [] then p else p.(next := Pick(p) + 1)
  }

  class EventLoopPool {
    var mainLoop: Option<Loop>
    var loops: map<Tid, Loop>
    var nextLoops: seq<Loop>
    var next: nat

    constructor ()
      ensures View() == Pool(None, map[], [], 0)
    {
      mainLoop, loops, nextLoops, next := None, map[], [], 0;
    }

    function View(): Pool
      reads this
    {
      Pool(mainLoop, loops, nextLoops, next)
    }

    method AddEventLoop(tid: Tid, loop: Option<Loop>, isMain: bool) returns (added: bool)
      modifies this`mainLoop, this`loops, this`nextLoops
      ensures View() == Add(old(View()), tid, loop, isMain) && added == (loop.Some? && tid !in old(loops))
      ensures loops == if added then old(loops)[tid := loop.value] else old(loops)
      ensures nextLoops == if added && !isMain then old(nextLoops) + [loop.value] else old(nextLoops)
      ensures mainLoop == if added && isMain then loop else old(mainLoop)
    {
      if loop == None || tid in loops {
        return false;
      }
      loops := loops[tid := loop.value];
      if !isMain {
        nextLoops := nextLoops + [loop.value];
      } else {
        mainLoop := loop;
      }
      return true;
    }

    /** Whatever was added since the last call, the position is in range. */
    method GetNextLoop() returns (loop: Option<Loop>)
      modifies this`next
      ensures View() == Advance(old(View()))
      ensures if nextLoops == [] then loop == mainLoop
              else Pick(old(View())) < |nextLoops| && loop == Some(nextLoops[Pick(old(View()))])
    {
      if |nextLoops| == 0 {
        return mainLoop;
      }
      if |nextLoops| <= next {
        next := 0;
      }
      loop := Some(nextLoops[next]);
      next := next + 1;
    }

    method GetLoop(tid: Tid) returns (loop: Option<Loop>)
      ensures loop == if tid in loops then Some(loops[tid]) else None
    {
      if tid !in loops {
        return None;
      }
      return Some(loops[tid]);
    }

    method GetMainLoop() returns (loop: Option<Loop>)
      ensures loop == mainLoop
    {
      return mainLoop;
    }
  }

  // ---- fairness ----

  /** The positions that k calls in a row pick. */
  function Picks(p: Pool, k: nat): seq<nat>
    decreases k
  {
    if k == 0 then [] else [Pick(p)] + Picks(Advance(p), k - 1)
  }

  function Count(s: seq<nat>, j: nat): nat {
    if s == [] then 0 else (if s[0] == j then 1 else 0) + Count(s[1..], j)
  }

  /** The pool after k calls. */
  function After(p: Pool, k: nat): Pool
    decreases k
  {
    if k == 0 then p else After(Advance(p), k - 1)
  }

  /** How many calls from now position j is picked for the first time. */
  function Distance(p: Pool, j: nat): nat
    requires j < |p.nextLoops|
  {
    if Pick(p) <= j then j - Pick(p) else j + |p.nextLoops| - Pick(p)
  }

  lemma {:induction false} PicksSplit(p: Pool, a: nat, b: nat, j: nat)
    ensures Picks(p, a + b) == Picks(p, a) + Picks(After(p, a), b)
    ensures Count(Picks(p, a + b), j) == Count(Picks(p, a), j) + Count(Picks(After(p, a), b), j)
    decreases a
  {
    if a == 0 {
      assert Picks(p, 0) + Picks(p, b) == Picks(p, b);
    } else {
      PicksSplit(Advance(p), a - 1, b, j);
      assert Picks(p, a + b) == [Pick(p)] + Picks(Advance(p), (a - 1) + b);
    }
  }

  /** Calls that do not go all the way round pick a position once if they reach it. */
  lemma {:induction false} PartOfRound(p: Pool, k: nat, j: nat)
    requires j < |p.nextLoops| && k <= |p.nextLoops|
    ensures Count(Picks(p, k), j) == if Distance(p, j) < k then 1 else 0
    ensures After(p, k).nextLoops == p.nextLoops
    ensures k > 0 ==>
      After(p, k).next == if Pick(p) + k <= |p.nextLoops| then Pick(p) + k else Pick(p) + k - |p.nextLoops|
    decreases k
  {
    if k > 0 {
      PartOfRound(Advance(p), k - 1, j);
    }
  }

  /** Calls that go once round pick every position once and come back to where they began. */
  lemma Round(p: Pool, j: nat)
    requires j < |p.nextLoops|
    ensures var n := |p.nextLoops|;
      Count(Picks(p, n), j) == 1 && After(p, n).nextLoops == p.nextLoops && Pick(After(p, n)) == Pick(p)
  {
    PartOfRound(p, |p.nextLoops|, j);
  }

  lemma {:induction false} Rounds(p: Pool, rounds: nat, rest: nat, k: nat, j: nat)
    requires j < |p.nextLoops| && rest < |p.nextLoops| && k == rounds * |p.nextLoops| + rest
    ensures Count(Picks(p, k), j) == rounds + (if Distance(p, j) < rest then 1 else 0)
    decreases rounds
  {
    var n := |p.nextLoops|;
    if rounds == 0 {
      PartOfRound(p, rest, j);
    } else {
      Round(p, j);
      assert k - n == (rounds - 1) * n + rest;
      Rounds(After(p, n), rounds - 1, rest, k - n, j);
      PicksSplit(p, n, k - n, j);
    }
  }

  /** In any k calls in a row, every one of n loops is returned k / n times, or once more. */
  lemma Fair(p: Pool, k: nat, j: nat)
    requires j < |p.nextLoops|
    ensures Count(Picks(p, k), j) == k / |p.nextLoops| + (if Distance(p, j) < k % |p.nextLoops| then 1 else 0)
  {
    var rounds, rest := k / |p.nextLoops|, k % |p.nextLoops|;
    assert k == rounds * |p.nextLoops| + rest;
    Rounds(p, rounds, rest, k, j);
  }

  /** i calls on, whole rounds and the position picked make up the way from the position reached so far. */
  lemma {:induction false} PicksTurn(p: Pool, k: nat, i: nat) returns (rounds: nat)
    requires i < k && p.next <= |p.nextLoops| && p.nextLoops != []
    ensures |Picks(p, k)| == k && Picks(p, k)[i] < |p.nextLoops|
    ensures p.next + i == Picks(p, k)[i] + rounds * |p.nextLoops|
    decreases k
  {
    rounds := 0;
    if k > 1 {
      var more := PicksTurn(Advance(p), k - 1, if i == 0 then 0 else i - 1);
      if i > 0 {
        rounds := more;
      }
    }
    if p.next == |p.nextLoops| {
      rounds := rounds + 1;
    }
  }

  /** The loops take turns in the order in which they were added, from the position reached so far on. */
  lemma PicksInOrder(p: Pool, k: nat, i: nat)
    requires i < k && p.next <= |p.nextLoops| && p.nextLoops != []
    ensures |Picks(p, k)| == k && Picks(p, k)[i] == (p.next + i) % |p.nextLoops|
  {
    var rounds := PicksTurn(p, k, i);
    Remainder(p.next + i, Picks(p, k)[i], rounds, |p.nextLoops|);
  }

  lemma Multiple(n: nat, factor: int)
    ensures factor > 0 ==> factor * n >= n
    ensures factor < 0 ==> factor * n <= 0 - n
  {
    if factor > 0 {
      assert (factor - 1) * n >= 0;
    } else if factor < 0 {
      assert (-factor - 1) * n >= 0;
    }
  }

  lemma Remainder(x: nat, r: nat, rounds: nat, n: nat)
    requires r < n && x == r + rounds * n
    ensures x % n == r
  {
    assert x == x % n + (x / n) * n;
    assert (x / n - rounds) * n == r - x % n;
    Multiple(n, x / n - rounds);
  }

  datatype Call = GetNext | AddLoop(tid: Tid, loop: Option<Loop>, isMain: bool)

  /** The positions that a row of calls picks. */
  function PicksOf(p: Pool, calls: seq<Call>): seq<nat>
    decreases |calls|
  {
    if calls == [] then []
    else match calls[0]
      case GetNext => [Pick(p)] + PicksOf(Advance(p), calls[1..])
      case AddLoop(tid, loop, isMain) => PicksOf(Add(p, tid, loop, isMain), calls[1..])
  }

  function Nexts(calls: seq<Call>): nat {
    if calls == [] then 0 else (if calls[0].GetNext? then 1 else 0) + Nexts(calls[1..])
  }

  /** However loops are added in between, a loop is returned again after at most one round and one call
      more for every loop that was added. */
  lemma {:induction false} NoStarvation(p: Pool, calls: seq<Call>, j: nat)
    requires j < |p.nextLoops| && p.next <= |p.nextLoops|
    requires Nexts(calls) > Distance(p, j) + (|calls| - Nexts(calls))
    ensures j in PicksOf(p, calls)
    decreases |calls|
  {
    if calls[0].GetNext? {
      if Pick(p) != j {
        NoStarvation(Advance(p), calls[1..], j);
      }
    } else {
      NoStarvation(Add(p, calls[0].tid, calls[0].loop, calls[0].isMain), calls[1..], j);
    }
  }

  // ---- who joins ----

  function Do(p: Pool, call: Call): Pool {
    match call
    case GetNext => Advance(p)
    case AddLoop(tid, loop, isMain) => Add(p, tid, loop, isMain)
  }

  /** The pool after a row of calls. */
  function DoAll(p: Pool, calls: seq<Call>): Pool {
    if calls == [] then p else Do(DoAll(p, calls[..|calls| - 1]), calls[|calls| - 1])
  }

  /** Call i offers a loop for the thread tid. */
  predicate Offers(calls: seq<Call>, i: nat, tid: Tid)
    requires i < |calls|
  {
    calls[i].AddLoop? && calls[i].loop.Some? && calls[i].tid == tid
  }

  /** Call i offers a loop, and it is the first one for its thread. */
  predicate OffersFirst(p: Pool, calls: seq<Call>, i: nat)
    requires i < |calls|
  {
    && calls[i].AddLoop? && calls[i].loop.Some? && calls[i].tid !in p.loops
    && forall j | 0 <= j < i :: !Offers(calls, j, calls[i].tid)
  }

  /** The worker loops among the first offers of calls, in their order. */
  function Workers(p: Pool, calls: seq<Call>): seq<Loop> {
    if calls == [] then []
    else
      var i := |calls| - 1;
      Workers(p, calls[..i])
      + if OffersFirst(p, calls, i) && !calls[i].isMain then [calls[i].loop.value] else []
  }

  /** The last main loop among the first offers of calls, or else that of p. */
  function MainOf(p: Pool, calls: seq<Call>): Option<Loop> {
    if calls == [] then p.mainLoop
    else
      var i := |calls| - 1;
      if OffersFirst(p, calls, i) && calls[i].isMain then calls[i].loop else MainOf(p, calls[..i])
  }

  lemma {:induction false} Known(p: Pool, calls: seq<Call>, tid: Tid)
    ensures tid in DoAll(p, calls).loops <==> tid in p.loops || exists j | 0 <= j < |calls| :: Offers(calls, j, tid)
  {
    if calls != [] {
      var rest := calls[..|calls| - 1];
      Known(p, rest, tid);
      assert forall j | 0 <= j < |rest| :: Offers(rest, j, tid) == Offers(calls, j, tid);
      assert Offers(calls, |rest|, tid) <==> Offers(calls, |rest|, tid) && |rest| < |calls|;
    }
  }

  /** However calls of the pool follow each other: the row of workers grows by exactly those that were the
      first offered for their thread, in their order, and the main loop is the last one so offered. */
  lemma {:induction false} Joined(p: Pool, calls: seq<Call>)
    ensures var q := DoAll(p, calls);
      q.nextLoops == p.nextLoops + Workers(p, calls) && q.mainLoop == MainOf(p, calls)
  {
    if calls != [] {
      var i := |calls| - 1;
      Joined(p, calls[..i]);
      if calls[i].AddLoop? {
        Known(p, calls[..i], calls[i].tid);
        assert forall j | 0 <= j < i :: Offers(calls[..i], j, calls[i].tid) == Offers(calls, j, calls[i].tid);
      }
    }
  }

  /** And each of them is found under its thread ever after. */
  lemma {:induction false} FoundForGood(p: Pool, calls: seq<Call>, i: nat)
    requires i < |calls| && OffersFirst(p, calls, i)
    ensures var q := DoAll(p, calls); calls[i].tid in q.loops && Some(q.loops[calls[i].tid]) == calls[i].loop
  {
    var rest, tid := calls[..|calls| - 1], calls[i].tid;
    if i < |rest| {
      assert forall j | 0 <= j < i :: Offers(rest, j, tid) == Offers(calls, j, tid);
      FoundForGood(p, rest, i);
    } else {
      Known(p, rest, tid);
      assert forall j | 0 <= j < i :: Offers(rest, j, tid) == Offers(calls, j, tid);
    }
  }
}
