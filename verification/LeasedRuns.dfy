/**
 The lease and the coupon attempts together: workers act on coupon rows only inside a task
 that holds the lease, and so no coupon is paid twice.
 */
module LeasedRuns {
  import JobLock
  import opened CouponRun
  import opened Claims

  /** The lease table with its tasks, and the payment rows with their workers; task `n` is the run of worker `n`. */
  datatype Shop = Shop(world: JobLock.World, floor: Floor)

  datatype Happening = OnLock(event: JobLock.Event) | OnRows(move: Move)

  function After(s: Shop, h: Happening): Shop {
    match h
    case OnLock(event) => s.(world := JobLock.After(s.world, event))
    case OnRows(move) => s.(floor := Next(s.floor, move))
  }

  function RunShop(s: Shop, hs: seq<Happening>): Shop
    decreases |hs|
  {
    if hs == [] then s else RunShop(After(s, hs[0]), hs[1..])
  }

  predicate AtWork(w: JobLock.World, id: nat, name: JobLock.Name) {
    id in w.tasks && w.tasks[id].working && w.tasks[id].name == name
  }

  /**
   What `withLock` gives the run, and what it asks of it: a worker acts only while its task
   is at work, the task ends when the worker is done, every task ends before its lease, no
   release cuts short a lease in use, and none stops between a credit and its record.
   */
  ghost predicate Kept(s: Shop, h: Happening, name: JobLock.Name) {
    match h
    case OnLock(event) =>
      && JobLock.Harmless(s.world, event) && JobLock.Timely(JobLock.After(s.world, event))
      && (event.End? && event.id in s.floor.workers ==> Idle(s.floor.workers[event.id]))
    case OnRows(move) =>
      && AtWork(s.world, move.worker, name)
      && (move.Stop? && move.worker in s.floor.workers ==> !s.floor.workers[move.worker].doing.Recording?)
  }

  ghost predicate KeptRun(s: Shop, hs: seq<Happening>, name: JobLock.Name)
    decreases |hs|
  {
    hs != [] ==> Kept(s, hs[0], name) && KeptRun(After(s, hs[0]), hs[1..], name)
  }

  /** What happens to the rows, leaving out what happens to the lease. */
  function Moves(hs: seq<Happening>): seq<Move> {
    if hs == [] then [] else (if hs[0].OnRows? then [hs[0].move] else []) + Moves(hs[1..])
  }

  /** Leases are held, tasks exclude each other, and whoever has anything in hand is at work. */
  ghost predicate Guarded(s: Shop, name: JobLock.Name) {
    && JobLock.Holding(s.world) && JobLock.Exclusive(s.world) && JobLock.Timely(s.world)
    && (forall w :: w in s.floor.workers && !Idle(s.floor.workers[w]) ==> AtWork(s.world, w, name))
  }

  lemma HappeningKeepsGuard(s: Shop, h: Happening, name: JobLock.Name)
    requires Guarded(s, name) && Kept(s, h, name)
    ensures Guarded(After(s, h), name)
    ensures h.OnRows? ==> Serial(s.floor, h.move)
  {
    match h
    case OnLock(event) =>
      JobLock.LeasesHeldExactlyWhenHarmless(s.world, event);
    case OnRows(move) =>
      forall w | w in s.floor.workers && w != move.worker
        ensures Idle(s.floor.workers[w])
      {
        assert !Idle(s.floor.workers[w]) ==> AtWork(s.world, w, name);
      }
  }

  /** What the rows go through under the lease is a run without overlap. */
  lemma {:induction false} LeasedIsSerial(s: Shop, hs: seq<Happening>, name: JobLock.Name)
    requires Guarded(s, name) && KeptRun(s, hs, name)
    ensures SerialRun(s.floor, Moves(hs))
    ensures RunShop(s, hs).floor == Run(s.floor, Moves(hs))
    decreases |hs|
  {
    if hs != [] {
      HappeningKeepsGuard(s, hs[0], name);
      LeasedIsSerial(After(s, hs[0]), hs[1..], name);
      if hs[0].OnRows? {
        assert Moves(hs) == [hs[0].move] + Moves(hs[1..]);
        assert Moves(hs)[1..] == Moves(hs[1..]);
      } else {
        assert Moves(hs) == Moves(hs[1..]);
      }
    }
  }

  /**
   The whole point of the lease: for any interleaving of instances, clocks, tasks and
   statements that keeps its rules, every coupon is credited at most once, and once all
   workers are idle it is paid and taxed exactly when it was credited.
   */
  lemma LeasedRunsPayOnce(s: Shop, hs: seq<Happening>, name: JobLock.Name)
    requires s.world.tasks == map[] && Opening(s.floor) && KeptRun(s, hs, name)
    ensures var g := RunShop(s, hs).floor;
            && CreditsDistinct(g.calls)
            && ((forall w :: w in g.workers ==> Idle(g.workers[w])) ==>
                  forall i :: 0 <= i < |g.rows| ==>
                    (g.rows[i].status == Paid <==> Credited(g.calls, i)) && (i in g.taxed <==> Credited(g.calls, i)))
  {
    LeasedIsSerial(s, hs, name);
    SerialRunsPayOnce(s.floor, Moves(hs));
  }
}
