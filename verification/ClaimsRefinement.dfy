/**
 One worker left alone does exactly what the coupon run of CouponRun.dfy says: its
 statements, taken one after another, refine the pass that is modelled there as one step.
 */
module ClaimsRefinement {
  import opened Claims
  import opened CouponRun

  /** What the workers see of the payment rows. */
  function Seen(payments: seq<Payment>): (rows: seq<Row>)
    ensures |rows| == |payments|
    ensures forall i :: 0 <= i < |payments| ==> rows[i] == Row(payments[i].status, payments[i].attempts)
  {
    seq(|payments|, i requires 0 <= i < |payments| => Row(payments[i].status, payments[i].attempts))
  }

  function PaidRows(payments: seq<Payment>): set<nat> {
    set i | 0 <= i < |payments| && payments[i].status == Paid
  }

  function Reads(turns: seq<Turn>): (list: seq<Read>)
    ensures |list| == |turns|
    ensures forall k :: 0 <= k < |turns| ==> list[k] == Read(turns[k].payment, turns[k].read)
  {
    seq(|turns|, k requires 0 <= k < |turns| => Read(turns[k].payment, turns[k].read))
  }

  /** The statements of one attempt. */
  function TurnMoves(w: WorkerId, turn: Turn, rest: seq<Move>): seq<Move> {
    [Claim(w)] + ([Disburse(w, turn.rail.Ok?)] + ([if turn.rail.Ok? then Record(w) else RecordFailure(w)] + rest))
  }

  /** The statements of a pass over the remaining turns. */
  function PassMoves(w: WorkerId, turns: seq<Turn>): seq<Move> {
    if turns == [] then [] else TurnMoves(w, turns[0], PassMoves(w, turns[1..]))
  }

  function CallOf(turn: Turn): Call {
    Call(turn.payment, turn.read + 1, turn.rail.Ok?)
  }

  function CallsOf(turns: seq<Turn>): seq<Call> {
    if turns == [] then [] else [CallOf(turns[0])] + CallsOf(turns[1..])
  }

  /** The floor as worker `w` sees a desk, with `list` still to do. */
  ghost predicate Matches(f: Floor, d: Desk, w: WorkerId, list: seq<Read>) {
    && f.rows == Seen(d.payments) && f.taxed == PaidRows(d.payments)
    && w in f.workers && f.workers[w] == Worker(list, Nothing)
  }

  lemma SeenAfter(d: Desk, turn: Turn)
    requires turn.payment < |d.payments| && Claimable(d.payments[turn.payment], turn) && d.payments[turn.payment].due.net >= 0
    ensures var p := Attempted(d.payments[turn.payment], turn);
            && Seen(Attempt(d, turn).payments) == Seen(d.payments)[turn.payment := Row(p.status, p.attempts)]
            && PaidRows(Attempt(d, turn).payments) == PaidRows(d.payments) + (if turn.rail.Ok? then {turn.payment} else {})
            && turn.payment !in PaidRows(d.payments)
  {
  }

  /** Three statements of an undisturbed worker are one attempt. */
  lemma TurnRefines(f: Floor, d: Desk, w: WorkerId, turn: Turn, list: seq<Read>, rest: seq<Move>) returns (g: Floor)
    requires turn.payment < |d.payments| && Claimable(d.payments[turn.payment], turn) && d.payments[turn.payment].due.net >= 0
    requires Matches(f, d, w, [Read(turn.payment, turn.read)] + list)
    ensures Run(f, TurnMoves(w, turn, rest)) == Run(g, rest)
    ensures Matches(g, Attempt(d, turn), w, list) && g.calls == f.calls + [CallOf(turn)]
  {
    var i, attempt, ok := turn.payment, turn.read + 1, turn.rail.Ok?;
    var p := Attempted(d.payments[i], turn);
    SeenAfter(d, turn);
    assert ([Read(i, turn.read)] + list)[1..] == list;
    var claimed := f.rows[i := f.rows[i].(attempts := attempt)];
    var f1 := Floor(claimed, f.taxed, f.workers[w := Worker(list, Disbursing(i, attempt))], f.calls);
    var doing := if ok then Recording(i, attempt) else Failing(i, attempt);
    var f2 := Floor(claimed, f.taxed, f.workers[w := Worker(list, doing)], f.calls + [CallOf(turn)]);
    g := Floor(Seen(Attempt(d, turn).payments), PaidRows(Attempt(d, turn).payments), f.workers[w := Worker(list, Nothing)],
               f.calls + [CallOf(turn)]);
    var last := if ok then Record(w) else RecordFailure(w);
    StepTo(f, Claim(w), [Disburse(w, ok)] + ([last] + rest), f1);
    StepTo(f1, Disburse(w, ok), [last] + rest, f2);
    StepTo(f2, last, rest, g);
  }

  /** Every remaining turn still finds its row as it was read. */
  ghost predicate Ready(d: Desk, turns: seq<Turn>) {
    && Distinct(Ids(turns))
    && (forall k :: 0 <= k < |turns| ==>
          && turns[k].payment < |d.payments| && Claimable(d.payments[turns[k].payment], turns[k])
          && d.payments[turns[k].payment].due.net >= 0)
  }

  lemma StillReady(d: Desk, turns: seq<Turn>)
    requires Ready(d, turns) && turns != []
    ensures Ready(Attempt(d, turns[0]), turns[1..])
  {
    forall k | 0 <= k < |turns[1..]|
      ensures turns[1..][k].payment != turns[0].payment
    {
      assert Ids(turns)[0] != Ids(turns)[k + 1];
    }
    forall i, j | 0 <= i < j < |turns[1..]|
      ensures Ids(turns[1..])[i] != Ids(turns[1..])[j]
    {
      assert Ids(turns)[i + 1] != Ids(turns)[j + 1];
    }
  }

  /** Taking the first turn first. */
  lemma {:induction false} AttemptFirst(d: Desk, turns: seq<Turn>)
    requires turns != []
    ensures AttemptAll(d, turns) == AttemptAll(Attempt(d, turns[0]), turns[1..])
  {
    var init, last := turns[..|turns| - 1], turns[|turns| - 1];
    if init == [] {
      assert turns == [last];
    } else {
      AttemptFirst(d, init);
      assert turns[1..][..|turns| - 2] == init[1..] && turns[1..][|turns| - 2] == last;
    }
  }

  lemma FirstTurnRefines(f: Floor, d: Desk, w: WorkerId, turns: seq<Turn>) returns (g: Floor)
    requires turns != [] && Ready(d, turns) && Matches(f, d, w, Reads(turns))
    ensures Run(f, PassMoves(w, turns)) == Run(g, PassMoves(w, turns[1..]))
    ensures Matches(g, Attempt(d, turns[0]), w, Reads(turns[1..])) && g.calls == f.calls + [CallOf(turns[0])]
  {
    assert Reads(turns) == [Read(turns[0].payment, turns[0].read)] + Reads(turns[1..]);
    g := TurnRefines(f, d, w, turns[0], Reads(turns[1..]), PassMoves(w, turns[1..]));
  }

  lemma CallsSnoc(before: seq<Call>, turns: seq<Turn>)
    requires turns != []
    ensures before + CallsOf(turns) == (before + [CallOf(turns[0])]) + CallsOf(turns[1..])
  {
  }

  lemma {:induction false} PassRefines(f: Floor, d: Desk, w: WorkerId, turns: seq<Turn>) returns (g: Floor, e: Desk)
    requires Ready(d, turns) && Matches(f, d, w, Reads(turns))
    ensures g == Run(f, PassMoves(w, turns)) && e == AttemptAll(d, turns)
    ensures Matches(g, e, w, []) && g.calls == f.calls + CallsOf(turns)
    decreases |turns|
  {
    if turns == [] {
      g, e := f, d;
    } else {
      var mid := FirstTurnRefines(f, d, w, turns);
      StillReady(d, turns);
      AttemptFirst(d, turns);
      CallsSnoc(f.calls, turns);
      g, e := PassRefines(mid, Attempt(d, turns[0]), w, turns[1..]);
    }
  }

  lemma {:induction false} ListedAll(payments: seq<Payment>, turns: seq<Turn>)
    requires forall k :: 0 <= k < |turns| ==>
               && turns[k].payment < |payments| && Claimable(payments[turns[k].payment], turns[k])
               && payments[turns[k].payment].attempts < MAX_ATTEMPTS
    ensures Listed(Seen(payments), Ids(turns)) == Reads(turns)
  {
    if turns != [] {
      var init, last := turns[..|turns| - 1], turns[|turns| - 1];
      ListedAll(payments, init);
      assert Ids(turns)[..|turns| - 1] == Ids(init);
      assert Reads(turns) == Reads(init) + [Read(last.payment, last.read)];
    }
  }

  /**
   A worker that reads a page of payable rows and is then left alone ends with the rows,
   the tax records and the calls of the pass: the step in CouponRun.dfy is what its
   statements come to.
   */
  lemma LoneWorkerIsThePass(f: Floor, d: Desk, w: WorkerId, turns: seq<Turn>)
    requires RowsValid(d.payments) && Ready(d, turns) && Matches(f, d, w, [])
    ensures var g := Run(f, [ReadList(w, Ids(turns))] + PassMoves(w, turns));
            && g.rows == Seen(AttemptAll(d, turns).payments)
            && g.taxed == PaidRows(AttemptAll(d, turns).payments)
            && g.calls == f.calls + CallsOf(turns)
            && w in g.workers && Idle(g.workers[w])
  {
    forall k | 0 <= k < |turns|
      ensures d.payments[turns[k].payment].attempts < MAX_ATTEMPTS
    {
      assert RowValid(d.payments[turns[k].payment]);
    }
    ListedAll(d.payments, turns);
    var listed := Floor(f.rows, f.taxed, f.workers[w := Worker(Reads(turns), Nothing)], f.calls);
    StepTo(f, ReadList(w, Ids(turns)), PassMoves(w, turns), listed);
    var g, e := PassRefines(listed, d, w, turns);
  }
}
