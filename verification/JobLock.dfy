/**
 The lease that keeps a scheduled job on one instance, after
 src/scheduler/job-lock.service.ts: several instances, one database clock, and tasks that
 start, end and release at any moment.
 */
module JobLock {

  type Name = string
  type Instance = string
  type TaskId = nat

  datatype Lease = Lease(until: int, holder: Instance)

  // ---- The two statements ----

  predicate Free(locks: map<Name, Lease>, name: Name, now: int) {
    name in locks ==> locks[name].until < now
  }

  /** INSERT ... ON CONFLICT DO UPDATE ... WHERE locked_until < now(). */
  function Claimed(locks: map<Name, Lease>, name: Name, instance: Instance, seconds: nat, now: int): map<Name, Lease> {
    if Free(locks, name, now) then locks[name := Lease(now + seconds, instance)] else locks
  }

  /** UPDATE ... WHERE name and locked_by match; the time is the instance's own clock. */
  function Released(locks: map<Name, Lease>, name: Name, instance: Instance, clock: int): map<Name, Lease> {
    if name in locks && locks[name].holder == instance then locks[name := Lease(clock, instance)] else locks
  }

  /** However late a release comes, it never touches a lease another instance holds now, nor any other name. */
  lemma ReleaseOnlyOwnLease(locks: map<Name, Lease>, name: Name, instance: Instance, clock: int, other: Name)
    requires other in locks && (other != name || locks[other].holder != instance)
    ensures other in Released(locks, name, instance, clock)
    ensures Released(locks, name, instance, clock)[other] == locks[other]
  {
  }

  class Locks {
    var rows: map<Name, Lease>

    constructor ()
      ensures rows == map[]
    {
      rows := map[];
    }

    method Claim(name: Name, instance: Instance, seconds: nat, now: int) returns (won: bool)
      modifies this
      ensures won <==> name !in old(rows) || old(rows)[name].until < now
      ensures !won ==> rows == old(rows)
      ensures rows == Claimed(old(rows), name, instance, seconds, now)
      ensures won ==> rows[name] == Lease(now + seconds, instance)
    {
      if name !in rows || rows[name].until < now {
        rows := rows[name := Lease(now + seconds, instance)];
        return true;
      }
      return false;
    }

    method Release(name: Name, instance: Instance, clock: int)
      modifies this
      ensures rows == Released(old(rows), name, instance, clock)
      ensures name in old(rows) && old(rows)[name].holder == instance ==> rows == old(rows)[name := Lease(clock, instance)]
      ensures name in rows && rows[name].holder != instance ==> rows == old(rows)
    {
      if name in rows && rows[name].holder == instance {
        rows := rows[name := Lease(clock, instance)];
      }
    }
  }

  // ---- Instances, tasks and the clock ----

  /** A task is working until it ends, and then still owes its release. */
  datatype Task = Task(name: Name, instance: Instance, leaseEnds: int, working: bool)

  datatype World = World(locks: map<Name, Lease>, now: int, tasks: map<TaskId, Task>)

  datatype Event =
    | Wait(seconds: nat)
    | Start(id: TaskId, name: Name, instance: Instance, lease: nat)
    | End(id: TaskId)
    | Finish(id: TaskId, clock: int)

  function After(w: World, e: Event): World {
    match e
    case Wait(seconds) => w.(now := w.now + seconds)
    case Start(id, name, instance, lease) =>
      if id in w.tasks || !Free(w.locks, name, w.now) then w
      else
        w.(locks := Claimed(w.locks, name, instance, lease, w.now),
           tasks := w.tasks[id := Task(name, instance, w.now + lease, true)])
    case End(id) =>
      if id in w.tasks then w.(tasks := w.tasks[id := w.tasks[id].(working := false)]) else w
    case Finish(id, clock) =>
      if id in w.tasks && !w.tasks[id].working
      then w.(locks := Released(w.locks, w.tasks[id].name, w.tasks[id].instance, clock), tasks := w.tasks - {id})
      else w
  }

  function Run(w: World, events: seq<Event>): World
    decreases |events|
  {
    if events == [] then w else Run(After(w, events[0]), events[1..])
  }

  /** No task is still working after its lease has ended. */
  ghost predicate Timely(w: World) {
    forall id :: id in w.tasks && w.tasks[id].working ==> w.now <= w.tasks[id].leaseEnds
  }

  /** Timely at every moment of the run. */
  ghost predicate TimelyRun(w: World, events: seq<Event>)
    decreases |events|
  {
    Timely(w) && (events != [] ==> TimelyRun(After(w, events[0]), events[1..]))
  }

  /** Every working task holds the lease of its name for as long as it was promised. */
  ghost predicate Holding(w: World) {
    forall id :: id in w.tasks && w.tasks[id].working ==>
      && w.tasks[id].name in w.locks
      && w.locks[w.tasks[id].name].holder == w.tasks[id].instance
      && w.tasks[id].leaseEnds <= w.locks[w.tasks[id].name].until
  }

  ghost predicate Exclusive(w: World) {
    forall i, j :: i in w.tasks && j in w.tasks && i != j && w.tasks[i].working && w.tasks[j].working ==>
                     w.tasks[i].name != w.tasks[j].name
  }

  /** Tasks of one name and instance: what a release cannot tell apart. */
  predicate Alike(a: Task, b: Task) {
    a.name == b.name && a.instance == b.instance
  }

  /** A release leaves no working task of the same name and instance with less than its lease. */
  ghost predicate Harmless(w: World, e: Event) {
    e.Finish? && e.id in w.tasks && !w.tasks[e.id].working ==>
      forall j :: j in w.tasks && w.tasks[j].working && Alike(w.tasks[j], w.tasks[e.id]) ==> w.tasks[j].leaseEnds <= e.clock
  }

  ghost predicate HarmlessRun(w: World, events: seq<Event>)
    decreases |events|
  {
    events != [] ==> Harmless(w, events[0]) && HarmlessRun(After(w, events[0]), events[1..])
  }

  /** While tasks are timely, no single event breaks exclusion, and it leaves every lease held exactly when it is harmless. */
  lemma LeasesHeldExactlyWhenHarmless(w: World, e: Event)
    requires Holding(w) && Exclusive(w) && Timely(w)
    ensures Exclusive(After(w, e))
    ensures Holding(After(w, e)) <==> Harmless(w, e)
  {
    var v := After(w, e);
    if e.Finish? && e.id in w.tasks && !w.tasks[e.id].working {
      var done := w.tasks[e.id];
      forall j | j in w.tasks && w.tasks[j].working
        ensures j in v.tasks && v.tasks[j] == w.tasks[j]
      {
      }
      if Holding(v) {
        forall j | j in w.tasks && w.tasks[j].working && Alike(w.tasks[j], done)
          ensures w.tasks[j].leaseEnds <= e.clock
        {
          assert v.tasks[j].leaseEnds <= v.locks[done.name].until;
        }
      }
    }
  }

  lemma {:induction false} RunKeepsHolding(w: World, events: seq<Event>)
    requires Holding(w) && Exclusive(w) && TimelyRun(w, events) && HarmlessRun(w, events)
    ensures Holding(Run(w, events)) && Exclusive(Run(w, events))
    decreases |events|
  {
    if events != [] {
      LeasesHeldExactlyWhenHarmless(w, events[0]);
      RunKeepsHolding(After(w, events[0]), events[1..]);
    }
  }

  /**
   If every task stops working before its lease ends and no release cuts short a lease that
   another task of its own instance is working under, no two tasks under one name ever work
   at the same time, whatever the interleaving, the instances and the clocks.
   */
  lemma NoTwoTasksTogether(w: World, events: seq<Event>)
    requires w.tasks == map[] && TimelyRun(w, events) && HarmlessRun(w, events)
    ensures Exclusive(Run(w, events))
  {
    RunKeepsHolding(w, events);
  }

  /** Some task of the name and instance of task `id` is working. */
  ghost predicate TwinWorking(w: World, id: TaskId)
    requires id in w.tasks
  {
    exists j :: j in w.tasks && j != id && w.tasks[j].working && Alike(w.tasks[j], w.tasks[id])
  }

  /**
   The condition is exact. After a release whose clock is already past, the next start of
   the job by anyone runs alone exactly when no other task of the releasing instance is
   still working on it.
   */
  lemma LateReleaseSafeExactlyWhen(w: World, id: TaskId, clock: int, next: TaskId, instance: Instance, lease: nat)
    requires Holding(w) && Exclusive(w) && Timely(w)
    requires id in w.tasks && !w.tasks[id].working && clock < w.now && next !in w.tasks
    ensures Exclusive(After(After(w, Finish(id, clock)), Start(next, w.tasks[id].name, instance, lease))) <==> !TwinWorking(w, id)
  {
    var name := w.tasks[id].name;
    var v := After(w, Finish(id, clock));
    var u := After(v, Start(next, name, instance, lease));
    assert v.tasks == w.tasks - {id};
    if TwinWorking(w, id) {
      var j :| j in w.tasks && j != id && w.tasks[j].working && Alike(w.tasks[j], w.tasks[id]);
      assert Free(v.locks, name, v.now);
      assert u.tasks[next].working && u.tasks[j] == w.tasks[j];
    }
  }

  // ---- A condition an instance can keep by itself ----

  /** An instance starts no job under a name while an earlier one of its own still owes its release. */
  ghost predicate Settled(w: World, e: Event) {
    e.Start? ==> forall id :: id in w.tasks && w.tasks[id].name == e.name ==> w.tasks[id].instance != e.instance
  }

  ghost predicate SettledRun(w: World, events: seq<Event>)
    decreases |events|
  {
    events != [] ==> Settled(w, events[0]) && SettledRun(After(w, events[0]), events[1..])
  }

  ghost predicate OneEach(w: World) {
    forall i, j :: i in w.tasks && j in w.tasks && i != j ==> !Alike(w.tasks[i], w.tasks[j])
  }

  /** An instance that waits for its own release never releases a lease it still needs. */
  lemma {:induction false} SettledRunsAreHarmless(w: World, events: seq<Event>)
    requires OneEach(w) && SettledRun(w, events)
    ensures HarmlessRun(w, events)
    decreases |events|
  {
    if events != [] {
      SettledRunsAreHarmless(After(w, events[0]), events[1..]);
    }
  }

  // ---- A run that breaks it ----

  lemma RunCons(w: World, e: Event, rest: seq<Event>)
    requires Timely(w)
    ensures Run(w, [e] + rest) == Run(After(w, e), rest)
    ensures TimelyRun(w, [e] + rest) <==> TimelyRun(After(w, e), rest)
  {
    assert ([e] + rest)[1..] == rest;
  }

  /** `a` finishes in time, but its release is delayed; it starts again, and the release then lets `b` in. */
  function LateRelease(name: Name, a: Instance, b: Instance): seq<Event> {
    [Start(1, name, a, 10)] + ([End(1)] + ([Wait(11)] + ([Start(2, name, a, 10)] +
    ([Finish(1, 11)] + ([Wait(1)] + ([Start(3, name, b, 10)] + []))))))
  }

  /**
   An instance whose first task ended in time but whose release is delayed past the lease
   claims again; the late release then frees the second lease, and another instance
   starts alongside it although every task was timely.
   */
  lemma LateReleaseOfOwnLease(name: Name, a: Instance, b: Instance)
    ensures var w := World(map[], 0, map[]);
            TimelyRun(w, LateRelease(name, a, b)) && !Exclusive(Run(w, LateRelease(name, a, b)))
  {
    var w0 := World(map[], 0, map[]);
    var first, second, third := Task(name, a, 10, true), Task(name, a, 21, true), Task(name, b, 22, true);
    var done := first.(working := false);
    var w1 := World(map[name := Lease(10, a)], 0, map[1 := first]);
    var w2 := World(map[name := Lease(10, a)], 0, map[1 := done]);
    var w3 := World(map[name := Lease(10, a)], 11, map[1 := done]);
    var w4 := World(map[name := Lease(21, a)], 11, map[1 := done, 2 := second]);
    var w5 := World(map[name := Lease(11, a)], 11, map[2 := second]);
    var w6 := World(map[name := Lease(11, a)], 12, map[2 := second]);
    var w7 := World(map[name := Lease(22, b)], 12, map[2 := second, 3 := third]);
    var e6 := [Start(3, name, b, 10)] + [];
    var e5 := [Wait(1)] + e6;
    var e4 := [Finish(1, 11)] + e5;
    var e3 := [Start(2, name, a, 10)] + e4;
    var e2 := [Wait(11)] + e3;
    var e1 := [End(1)] + e2;
    Link(w0, Start(1, name, a, 10), e1, w1);
    Link(w1, End(1), e2, w2);
    Link(w2, Wait(11), e3, w3);
    Link(w3, Start(2, name, a, 10), e4, w4);
    Link(w4, Finish(1, 11), e5, w5);
    Link(w5, Wait(1), e6, w6);
    Link(w6, Start(3, name, b, 10), [], w7);
    assert 2 in w7.tasks && 3 in w7.tasks && w7.tasks[2] == second && w7.tasks[3] == third;
  }

  lemma Link(w: World, e: Event, rest: seq<Event>, next: World)
    requires Timely(w) && After(w, e).locks == next.locks && After(w, e).now == next.now && After(w, e).tasks == next.tasks
    ensures Run(w, [e] + rest) == Run(next, rest)
    ensures TimelyRun(w, [e] + rest) <==> TimelyRun(next, rest)
  {
    RunCons(w, e, rest);
    assert After(w, e) == next;
  }
}
