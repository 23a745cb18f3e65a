/**
 Every try is a call: among overlapping workers that are careful and not broken off, a
 payment has been sent to the rail once for each attempt, and is given up only after three
 calls of which none was credited.
 */
module ClaimTries {
  import opened CouponRun
  import opened Claims

  /** No worker stops with a payment in hand. */
  predicate Unbroken(f: Floor, m: Move) {
    m.Stop? && m.worker in f.workers ==> f.workers[m.worker].doing == Nothing
  }

  predicate UnbrokenRun(f: Floor, moves: seq<Move>)
    decreases |moves|
  {
    moves != [] ==> Unbroken(f, moves[0]) && UnbrokenRun(Next(f, moves[0]), moves[1..])
  }

  /** Some worker has claimed the payment and not yet called the rail. */
  predicate AboutToCall(workers: map<WorkerId, Worker>, p: nat) {
    exists w :: w in workers && workers[w].doing.Disbursing? && workers[w].doing.payment == p
  }

  predicate InHand(workers: map<WorkerId, Worker>, p: nat) {
    exists w :: w in workers && BusyWith(workers[w], p)
  }

  /** One call for each attempt, but for one still to be made. */
  ghost predicate CallsCounted(f: Floor, p: nat) {
    p < |f.rows| && |CallsFor(f.calls, p)| + (if AboutToCall(f.workers, p) then 1 else 0) == f.rows[p].attempts
  }

  /** A payment in hand is still outstanding, at the attempt its worker drew. */
  ghost predicate HandsAgree(f: Floor, p: nat) {
    p < |f.rows| && forall w :: w in f.workers && BusyWith(f.workers[w], p) ==>
      Owed(f.rows[p]) && f.workers[w].doing.attempt == f.rows[p].attempts
  }

  /** Given up after the third attempt, and not left outstanding after it. */
  ghost predicate ThreeTries(f: Floor, p: nat) {
    && p < |f.rows| && f.rows[p].attempts <= 3
    && (f.rows[p].status == Escalated ==> f.rows[p].attempts == 3)
    && (Owed(f.rows[p]) && f.rows[p].attempts == 3 ==> InHand(f.workers, p))
  }

  ghost predicate Tally(f: Floor, p: nat) {
    CallsCounted(f, p) && HandsAgree(f, p) && ThreeTries(f, p)
  }

  // ---- Each kind of move ----

  /** A move after which everybody has in hand what they had, and nothing is written or called. */
  lemma SameHandsKeepTally(f: Floor, g: Floor, p: nat)
    requires Tally(f, p) && g.rows == f.rows && g.calls == f.calls && g.workers.Keys == f.workers.Keys
    requires forall w :: w in f.workers ==> g.workers[w].doing == f.workers[w].doing
    ensures Tally(g, p)
  {
    if AboutToCall(f.workers, p) {
      var w :| w in f.workers && f.workers[w].doing.Disbursing? && f.workers[w].doing.payment == p;
      assert w in g.workers && g.workers[w].doing.Disbursing?;
    }
    if InHand(f.workers, p) {
      var w :| w in f.workers && BusyWith(f.workers[w], p);
      assert BusyWith(g.workers[w], p);
    }
    assert forall w :: w in g.workers && BusyWith(g.workers[w], p) ==> BusyWith(f.workers[w], p);
  }

  /** Worker `w` was and is busy with another payment, if any; row, calls and other hands are as they were. */
  lemma ElsewhereKeepsTally(f: Floor, g: Floor, w: WorkerId, p: nat)
    requires Tally(f, p) && OnlyMoved(f.workers, g.workers, w)
    requires !BusyWith(f.workers[w], p) && !BusyWith(g.workers[w], p)
    requires p < |g.rows| && g.rows[p] == f.rows[p] && CallsFor(g.calls, p) == CallsFor(f.calls, p)
    ensures Tally(g, p)
  {
    forall v | v in f.workers && v != w
      ensures BusyWith(g.workers[v], p) <==> BusyWith(f.workers[v], p)
    {
    }
    if AboutToCall(f.workers, p) {
      var v :| v in f.workers && f.workers[v].doing.Disbursing? && f.workers[v].doing.payment == p;
      assert BusyWith(f.workers[v], p) && v != w && g.workers[v].doing.Disbursing?;
    }
    if AboutToCall(g.workers, p) {
      var v :| v in g.workers && g.workers[v].doing.Disbursing? && g.workers[v].doing.payment == p;
      assert BusyWith(g.workers[v], p) && v != w && f.workers[v].doing.Disbursing?;
    }
    if InHand(f.workers, p) {
      var v :| v in f.workers && BusyWith(f.workers[v], p);
      assert BusyWith(g.workers[v], p);
    }
  }

  /** Only worker `w` is busy with the payment, before or after. */
  lemma OnlyHand(f: Floor, w: WorkerId, p: nat, v: WorkerId)
    requires InOneHand(f) && w in f.workers && BusyWith(f.workers[w], p) && v in f.workers && v != w
    ensures !BusyWith(f.workers[v], p)
  {
  }

  lemma AboutIsInHand(workers: map<WorkerId, Worker>, p: nat)
    ensures AboutToCall(workers, p) ==> InHand(workers, p)
  {
    if AboutToCall(workers, p) {
      var w :| w in workers && workers[w].doing.Disbursing? && workers[w].doing.payment == p;
      assert BusyWith(workers[w], p);
    }
  }

  lemma AboutIsMine(f: Floor, w: WorkerId, p: nat)
    requires InOneHand(f) && w in f.workers && BusyWith(f.workers[w], p)
    ensures AboutToCall(f.workers, p) <==> f.workers[w].doing.Disbursing?
  {
    if AboutToCall(f.workers, p) {
      var v :| v in f.workers && f.workers[v].doing.Disbursing? && f.workers[v].doing.payment == p;
      assert BusyWith(f.workers[v], p);
    }
  }

  lemma CallsForSnoc(calls: seq<Call>, c: Call, p: nat)
    ensures CallsFor(calls + [c], p) == CallsFor(calls, p) + if c.payment == p then [c] else []
  {
    assert (calls + [c])[..|calls|] == calls;
  }

  /** A claim that wins payment `p` for worker `w`. */
  lemma WonKeepsTally(f: Floor, g: Floor, w: WorkerId, p: nat, rest: seq<Read>)
    requires Tally(f, p) && w in f.workers && (forall v :: v in f.workers ==> !BusyWith(f.workers[v], p))
    requires Owed(f.rows[p]) && f.rows[p].attempts < 3
    requires g == WithWorker(f.(rows := f.rows[p := f.rows[p].(attempts := f.rows[p].attempts + 1)]), w,
                             Worker(rest, Disbursing(p, f.rows[p].attempts + 1)))
    ensures Tally(g, p)
  {
    assert g.workers[w].doing.Disbursing? && BusyWith(g.workers[w], p);
    assert AboutToCall(g.workers, p) && InHand(g.workers, p);
    AboutIsInHand(f.workers, p);
    assert forall v :: v in g.workers && v != w ==> g.workers[v] == f.workers[v];
  }

  lemma CalledKeepsTally(f: Floor, g: Floor, w: WorkerId, p: nat, ok: bool)
    requires Tally(f, p) && InOneHand(f) && w in f.workers && f.workers[w].doing.Disbursing? && f.workers[w].doing.payment == p
    requires var d := f.workers[w].doing;
             g == WithWorker(f.(calls := f.calls + [Call(p, d.attempt, ok)]), w,
                             f.workers[w].(doing := if ok then Recording(p, d.attempt) else Failing(p, d.attempt)))
    ensures Tally(g, p)
  {
    CallsForSnoc(f.calls, Call(p, f.workers[w].doing.attempt, ok), p);
    assert AboutToCall(f.workers, p) && BusyWith(f.workers[w], p) && BusyWith(g.workers[w], p);
    forall v | v in f.workers && v != w
      ensures g.workers[v] == f.workers[v] && !BusyWith(f.workers[v], p)
    {
      OnlyHand(f, w, p, v);
    }
    assert !AboutToCall(g.workers, p) by {
      if v :| v in g.workers && g.workers[v].doing.Disbursing? && g.workers[v].doing.payment == p {
        assert BusyWith(g.workers[v], p);
      }
    }
  }

  /** The outcome of the call is written, and the payment leaves the hand. */
  lemma WrittenKeepsTally(f: Floor, g: Floor, w: WorkerId, p: nat, status: PaymentStatus)
    requires Tally(f, p) && InOneHand(f) && w in f.workers && BusyWith(f.workers[w], p) && !f.workers[w].doing.Disbursing?
    requires g.rows == f.rows[p := f.rows[p].(status := status)] && g.calls == f.calls
    requires g.workers == f.workers[w := f.workers[w].(doing := Nothing)]
    requires status == Paid || (status == Retry && f.rows[p].attempts < 3) || (status == Escalated && f.rows[p].attempts == 3)
    ensures Tally(g, p)
  {
    forall v | v in f.workers
      ensures !BusyWith(g.workers[v], p)
      ensures v != w ==> !BusyWith(f.workers[v], p)
    {
      if v != w {
        OnlyHand(f, w, p, v);
      }
    }
    AboutIsMine(f, w, p);
    AboutIsInHand(g.workers, p);
  }

  /**
   Why nobody may break off: a payment left outstanding after its third attempt, in nobody's
   hand, is never read, claimed or written again, so its schedule never closes.
   */
  lemma {:induction false} StrandedForGood(f: Floor, moves: seq<Move>, p: nat)
    requires WithinLimit(f) && p < |f.rows| && f.rows[p].attempts == 3 && !InHand(f.workers, p)
    ensures p < |Run(f, moves).rows| && Run(f, moves).rows[p] == f.rows[p]
    decreases |moves|
  {
    if moves != [] {
      StrandedMove(f, moves[0], p);
      MoveKeepsLimit(f, moves[0]);
      StrandedForGood(Next(f, moves[0]), moves[1..], p);
    }
  }

  lemma StrandedMove(f: Floor, m: Move, p: nat)
    requires WithinLimit(f) && p < |f.rows| && f.rows[p].attempts == 3 && !InHand(f.workers, p)
    ensures var g := Next(f, m); p < |g.rows| && g.rows[p] == f.rows[p] && !InHand(g.workers, p)
  {
    var g := Next(f, m);
    forall w | w in g.workers
      ensures !BusyWith(g.workers[w], p)
    {
      assert w in f.workers && !BusyWith(f.workers[w], p);
      if m.worker == w && m.Claim? && f.workers[w].list != [] {
        assert f.workers[w].list[0].attempts < 3;
      }
    }
  }

  /** A worker that stops between its claim of the third attempt and the call strands the payment. */
  lemma StoppedBeforeThirdCall(f: Floor, w: WorkerId, p: nat, moves: seq<Move>)
    requires Sound(f) && WithinLimit(f) && w in f.workers && f.workers[w].doing == Disbursing(p, 3)
    requires p < |f.rows| && Owed(f.rows[p]) && f.rows[p].attempts == 3
    ensures var g := Run(Next(f, Stop(w)), moves); p < |g.rows| && Owed(g.rows[p])
  {
    var g := Next(f, Stop(w));
    forall v | v in g.workers
      ensures !BusyWith(g.workers[v], p)
    {
      if v != w {
        assert BusyWith(f.workers[w], p);
        OnlyHand(f, w, p, v);
      }
    }
    MoveKeepsLimit(f, Stop(w));
    StrandedForGood(g, moves, p);
  }

  // ---- Any careful move ----

  lemma ClaimKeepsTally(f: Floor, m: Move, p: nat)
    requires Sound(f) && WithinLimit(f) && Tally(f, p) && m.Claim?
    ensures Tally(Next(f, m), p)
  {
    if m.worker in f.workers && f.workers[m.worker].list != [] && f.workers[m.worker].doing == Nothing {
      var w, read := m.worker, f.workers[m.worker].list[0];
      if read.payment < |f.rows| && Owed(f.rows[read.payment]) && f.rows[read.payment].attempts == read.attempts {
        ClaimIsFresh(f, w);
        if read.payment == p {
          WonKeepsTally(f, Next(f, m), w, p, f.workers[w].list[1..]);
        } else {
          ElsewhereKeepsTally(f, Next(f, m), w, p);
        }
      } else {
        SameHandsKeepTally(f, Next(f, m), p);
      }
    }
  }

  lemma DisburseKeepsTally(f: Floor, m: Move, p: nat)
    requires Sound(f) && Tally(f, p) && m.Disburse?
    ensures Tally(Next(f, m), p)
  {
    if m.worker in f.workers && f.workers[m.worker].doing.Disbursing? {
      var d := f.workers[m.worker].doing;
      if d.payment == p {
        CalledKeepsTally(f, Next(f, m), m.worker, p, m.ok);
      } else {
        CallsForSnoc(f.calls, Call(d.payment, d.attempt, m.ok), p);
        ElsewhereKeepsTally(f, Next(f, m), m.worker, p);
      }
    }
  }

  lemma RecordKeepsTally(f: Floor, m: Move, p: nat)
    requires Sound(f) && Tally(f, p) && m.Record?
    ensures Tally(Next(f, m), p)
  {
    if m.worker in f.workers && f.workers[m.worker].doing.Recording? {
      if f.workers[m.worker].doing.payment == p {
        WrittenKeepsTally(f, Next(f, m), m.worker, p, Paid);
      } else {
        ElsewhereKeepsTally(f, Next(f, m), m.worker, p);
      }
    }
  }

  lemma FailureKeepsTally(f: Floor, m: Move, p: nat)
    requires Sound(f) && Tally(f, p) && m.RecordFailure?
    ensures Tally(Next(f, m), p)
  {
    if m.worker in f.workers && f.workers[m.worker].doing.Failing? {
      if f.workers[m.worker].doing.payment == p {
        assert BusyWith(f.workers[m.worker], p);
        WrittenKeepsTally(f, Next(f, m), m.worker, p, if f.rows[p].attempts == 3 then Escalated else Retry);
      } else {
        ElsewhereKeepsTally(f, Next(f, m), m.worker, p);
      }
    }
  }

  lemma MoveKeepsTally(f: Floor, m: Move, p: nat)
    requires Sound(f) && WithinLimit(f) && Tally(f, p) && Unbroken(f, m)
    ensures Tally(Next(f, m), p)
  {
    match m
    case Claim(w) => ClaimKeepsTally(f, m, p);
    case Disburse(w, ok) => DisburseKeepsTally(f, m, p);
    case Record(w) => RecordKeepsTally(f, m, p);
    case RecordFailure(w) => FailureKeepsTally(f, m, p);
    case _ => SameHandsKeepTally(f, Next(f, m), p);
  }

  lemma {:induction false} RunKeepsTally(f: Floor, moves: seq<Move>, p: nat)
    requires Sound(f) && WithinLimit(f) && Tally(f, p) && CarefulRun(f, moves) && UnbrokenRun(f, moves)
    ensures Sound(Run(f, moves)) && Tally(Run(f, moves), p)
    decreases |moves|
  {
    if moves != [] {
      MoveKeepsTally(f, moves[0], p);
      MoveKeepsLimit(f, moves[0]);
      CarefulMoveKeepsSound(f, moves[0]);
      RunKeepsTally(Next(f, moves[0]), moves[1..], p);
    }
  }

  lemma UncreditedCalls(calls: seq<Call>, p: nat, k: nat)
    requires !Credited(calls, p) && k < |CallsFor(calls, p)|
    ensures !CallsFor(calls, p)[k].credited
  {
    CallsForMember(calls, p, k);
  }

  lemma {:induction false} CallsForMember(calls: seq<Call>, p: nat, k: nat)
    requires k < |CallsFor(calls, p)|
    ensures CallsFor(calls, p)[k] in calls && CallsFor(calls, p)[k].payment == p
  {
    var init := calls[..|calls| - 1];
    if k < |CallsFor(init, p)| {
      CallsForMember(init, p, k);
    }
  }

  /**
   However workers overlap, a payment they give up has been sent to the rail exactly three
   times, and credited none of them; and once nobody has it in hand, one still outstanding
   has been sent less than three times, once for each attempt.
   */
  lemma GivenUpAfterThreeCalls(f: Floor, moves: seq<Move>, p: nat)
    requires Opening(f) && CarefulRun(f, moves) && UnbrokenRun(f, moves) && p < |f.rows|
    ensures var g := Run(f, moves);
            && p < |g.rows|
            && (g.rows[p].status == Escalated ==>
                  |CallsFor(g.calls, p)| == 3 && forall k :: 0 <= k < 3 ==> !CallsFor(g.calls, p)[k].credited)
            && (Owed(g.rows[p]) && !InHand(g.workers, p) ==> |CallsFor(g.calls, p)| == g.rows[p].attempts < 3)
  {
    RunKeepsTally(f, moves, p);
    var g := Run(f, moves);
    AboutIsInHand(g.workers, p);
    if g.rows[p].status == Escalated {
      assert !InHand(g.workers, p);
      assert !Credited(g.calls, p) by {
        assert !BeingRecorded(g.workers, p);
      }
      forall k | 0 <= k < |CallsFor(g.calls, p)|
        ensures !CallsFor(g.calls, p)[k].credited
      {
        UncreditedCalls(g.calls, p, k);
      }
    }
  }
}
