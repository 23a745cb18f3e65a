/**
 Coupon attempts by any number of workers at once, step by step: the claim, the
 disbursement and the write that records it are separate statements of
 src/bonds/engine/coupon-runner.service.ts, and other workers may act between any two.
 */
module Claims {
  import opened CouponRun

  type WorkerId = nat

  /** An entry of the list a worker read at the start of its pass. */
  datatype Read = Read(payment: nat, attempts: nat)

  /** What a worker is in the middle of. */
  datatype Doing =
    | Nothing
    | Disbursing(payment: nat, attempt: nat)
    | Recording(payment: nat, attempt: nat)
    | Failing(payment: nat, attempt: nat)

  datatype Worker = Worker(list: seq<Read>, doing: Doing)

  datatype Row = Row(status: PaymentStatus, attempts: nat)

  /** A call to the rail, made for one payment under one attempt number. */
  datatype Call = Call(payment: nat, attempt: nat, credited: bool)

  /** The payment rows, the payments with a tax record, the workers, and every call made to the rail. */
  datatype Floor = Floor(rows: seq<Row>, taxed: set<nat>, workers: map<WorkerId, Worker>, calls: seq<Call>)

  datatype Move =
    | ReadList(worker: WorkerId, page: seq<nat>)
    | Claim(worker: WorkerId)
    | Disburse(worker: WorkerId, ok: bool)
    | Record(worker: WorkerId)
    | RecordFailure(worker: WorkerId)
    | Stop(worker: WorkerId)

  predicate Owed(r: Row) {
    r.status == PaymentStatus.Pending || r.status == Retry
  }

  function Listed(rows: seq<Row>, page: seq<nat>): (list: seq<Read>)
    ensures forall k :: 0 <= k < |list| ==>
              list[k].payment < |rows| && list[k].attempts == rows[list[k].payment].attempts < MAX_ATTEMPTS
  {
    if page == [] then []
    else
      var last := page[|page| - 1];
      Listed(rows, page[..|page| - 1])
      + if last < |rows| && Owed(rows[last]) && rows[last].attempts < MAX_ATTEMPTS then [Read(last, rows[last].attempts)] else []
  }

  function WithWorker(f: Floor, w: WorkerId, worker: Worker): Floor {
    f.(workers := f.workers[w := worker])
  }

  /** The compare-and-set on status and attempts. */
  function ClaimNext(f: Floor, w: WorkerId, worker: Worker): Floor
    requires worker.list != []
  {
    var read, rest := worker.list[0], worker.list[1..];
    if read.payment < |f.rows| && Owed(f.rows[read.payment]) && f.rows[read.payment].attempts == read.attempts then
      WithWorker(f.(rows := f.rows[read.payment := f.rows[read.payment].(attempts := read.attempts + 1)]), w,
                 Worker(rest, Disbursing(read.payment, read.attempts + 1)))
    else WithWorker(f, w, worker.(list := rest))
  }

  /**
   The paid status and the tax record are one transaction; a second tax record for the
   payment breaks a unique index, so the transaction rolls back and the attempt has failed.
   */
  function RecordPaid(f: Floor, w: WorkerId, worker: Worker, payment: nat, attempt: nat): Floor {
    if payment in f.taxed || payment >= |f.rows| then WithWorker(f, w, worker.(doing := Failing(payment, attempt)))
    else
      WithWorker(f.(rows := f.rows[payment := f.rows[payment].(status := Paid)], taxed := f.taxed + {payment}), w,
                 worker.(doing := Nothing))
  }

  /** The failure is written without a condition on what the row says by now. */
  function RecordFailed(f: Floor, w: WorkerId, worker: Worker, payment: nat, attempt: nat): Floor {
    var freed := WithWorker(f, w, worker.(doing := Nothing));
    if payment >= |f.rows| then freed
    else
      freed.(rows := f.rows[payment := f.rows[payment].(status := if attempt >= MAX_ATTEMPTS then Escalated else Retry)])
  }

  function Next(f: Floor, m: Move): Floor {
    if m.worker !in f.workers then f
    else
      var worker := f.workers[m.worker];
      match m
      case ReadList(w, page) =>
        if worker.list == [] && worker.doing == Nothing then WithWorker(f, w, worker.(list := Listed(f.rows, page))) else f
      case Claim(w) =>
        if worker.list != [] && worker.doing == Nothing then ClaimNext(f, w, worker) else f
      case Disburse(w, ok) =>
        if worker.doing.Disbursing? then
          var d := worker.doing;
          WithWorker(f.(calls := f.calls + [Call(d.payment, d.attempt, ok)]), w,
                     worker.(doing := if ok then Recording(d.payment, d.attempt) else Failing(d.payment, d.attempt)))
        else f
      case Record(w) =>
        if worker.doing.Recording? then RecordPaid(f, w, worker, worker.doing.payment, worker.doing.attempt) else f
      case RecordFailure(w) =>
        if worker.doing.Failing? then RecordFailed(f, w, worker, worker.doing.payment, worker.doing.attempt) else f
      case Stop(w) => WithWorker(f, w, Worker([], Nothing))
  }

  function Run(f: Floor, moves: seq<Move>): Floor
    decreases |moves|
  {
    if moves == [] then f else Run(Next(f, moves[0]), moves[1..])
  }

  /** New rows and workers with nothing to do. */
  predicate Opening(f: Floor) {
    && f.taxed == {} && f.calls == []
    && (forall i :: 0 <= i < |f.rows| ==> f.rows[i] == Row(PaymentStatus.Pending, 0))
    && (forall w :: w in f.workers ==> f.workers[w] == Worker([], Nothing))
  }

  // ---- Any interleaving ----

  /** The claim a worker holds but has not yet used. */
  predicate Holds(worker: Worker, payment: nat, attempt: nat) {
    worker.doing == Disbursing(payment, attempt)
  }

  ghost predicate WithinLimit(f: Floor) {
    && (forall i :: 0 <= i < |f.rows| ==> f.rows[i].attempts <= MAX_ATTEMPTS)
    && (forall w, k :: w in f.workers && 0 <= k < |f.workers[w].list| ==> f.workers[w].list[k].attempts < MAX_ATTEMPTS)
  }

  /** Attempt numbers in use were drawn by a claim. */
  ghost predicate Drawn(f: Floor) {
    && (forall k :: 0 <= k < |f.calls| ==>
          f.calls[k].payment < |f.rows| && 1 <= f.calls[k].attempt <= f.rows[f.calls[k].payment].attempts)
    && (forall w :: w in f.workers && f.workers[w].doing.Disbursing? ==>
          f.workers[w].doing.payment < |f.rows| && 1 <= f.workers[w].doing.attempt <= f.rows[f.workers[w].doing.payment].attempts)
  }

  /** Every call to the rail has its own payment and attempt number, and no two workers hold the same. */
  ghost predicate OwnNumbers(f: Floor) {
    && (forall k, m :: 0 <= k < m < |f.calls| ==>
          f.calls[k].payment != f.calls[m].payment || f.calls[k].attempt != f.calls[m].attempt)
    && (forall w, k :: w in f.workers && 0 <= k < |f.calls| ==>
          !Holds(f.workers[w], f.calls[k].payment, f.calls[k].attempt))
    && (forall w, v :: w in f.workers && v in f.workers && w != v && f.workers[w].doing.Disbursing? ==>
          !Holds(f.workers[v], f.workers[w].doing.payment, f.workers[w].doing.attempt))
  }

  lemma MoveKeepsLimit(f: Floor, m: Move)
    requires WithinLimit(f)
    ensures WithinLimit(Next(f, m))
  {
  }

  lemma MoveKeepsDrawn(f: Floor, m: Move)
    requires Drawn(f)
    ensures Drawn(Next(f, m))
  {
  }

  lemma MoveKeepsNumbers(f: Floor, m: Move)
    requires Drawn(f) && OwnNumbers(f)
    ensures OwnNumbers(Next(f, m))
  {
  }

  lemma {:induction false} RunKeepsNumbers(f: Floor, moves: seq<Move>)
    requires WithinLimit(f) && Drawn(f) && OwnNumbers(f)
    ensures var g := Run(f, moves); WithinLimit(g) && Drawn(g) && OwnNumbers(g)
    decreases |moves|
  {
    if moves != [] {
      MoveKeepsLimit(f, moves[0]);
      MoveKeepsDrawn(f, moves[0]);
      MoveKeepsNumbers(f, moves[0]);
      RunKeepsNumbers(Next(f, moves[0]), moves[1..]);
    }
  }

  /** Calls made to the rail for one payment. */
  function CallsFor(calls: seq<Call>, payment: nat): seq<Call> {
    if calls == [] then []
    else
      CallsFor(calls[..|calls| - 1], payment) + if calls[|calls| - 1].payment == payment then [calls[|calls| - 1]] else []
  }

  ghost predicate Numbered(calls: seq<Call>, limit: nat) {
    && (forall k :: 0 <= k < |calls| ==> 1 <= calls[k].attempt <= limit)
    && (forall k, m :: 0 <= k < m < |calls| ==> calls[k].attempt != calls[m].attempt)
  }

  lemma {:induction false} CallsForComesFrom(calls: seq<Call>, payment: nat)
    requires forall k, m :: 0 <= k < m < |calls| ==>
               calls[k].payment != calls[m].payment || calls[k].attempt != calls[m].attempt
    ensures forall k :: 0 <= k < |CallsFor(calls, payment)| ==>
              CallsFor(calls, payment)[k] in calls && CallsFor(calls, payment)[k].payment == payment
    ensures forall k, m :: 0 <= k < m < |CallsFor(calls, payment)| ==>
              CallsFor(calls, payment)[k].attempt != CallsFor(calls, payment)[m].attempt
  {
    if calls != [] {
      CallsForComesFrom(calls[..|calls| - 1], payment);
    }
  }

  function Attempts(calls: seq<Call>): (s: set<nat>)
    ensures forall k :: 0 <= k < |calls| ==> calls[k].attempt in s
    ensures forall n :: n in s ==> exists k :: 0 <= k < |calls| && calls[k].attempt == n
  {
    if calls == [] then {} else Attempts(calls[..|calls| - 1]) + {calls[|calls| - 1].attempt}
  }

  function UpToLimit(limit: nat): (s: set<nat>)
    ensures |s| == limit && forall n :: n in s <==> 1 <= n <= limit
  {
    if limit == 0 then {} else UpToLimit(limit - 1) + {limit}
  }

  lemma {:induction false} NumberedCount(calls: seq<Call>, limit: nat)
    requires Numbered(calls, limit)
    ensures |calls| == |Attempts(calls)| && Attempts(calls) <= UpToLimit(limit)
  {
    if calls != [] {
      var init, last := calls[..|calls| - 1], calls[|calls| - 1];
      NumberedCount(init, limit);
      assert last.attempt !in Attempts(init);
    }
  }

  /**
   However many workers overlap and however their statements interleave, stops included,
   no payment is attempted more than three times and the rail is called for it at most as
   often as it was claimed, each time under an attempt number of its own.
   */
  lemma AtMostThreeDisbursements(f: Floor, moves: seq<Move>, payment: nat)
    requires Opening(f) && payment < |f.rows|
    ensures var g := Run(f, moves);
            && |g.rows| == |f.rows|
            && |CallsFor(g.calls, payment)| <= g.rows[payment].attempts <= 3
            && (forall k, m :: 0 <= k < m < |g.calls| && g.calls[k].payment == payment && g.calls[m].payment == payment ==>
                  g.calls[k].attempt != g.calls[m].attempt)
  {
    RunKeepsNumbers(f, moves);
    RunKeepsRows(f, moves);
    var g := Run(f, moves);
    var mine := CallsFor(g.calls, payment);
    CallsForComesFrom(g.calls, payment);
    NumberedCount(mine, g.rows[payment].attempts);
    SubsetSize(Attempts(mine), UpToLimit(g.rows[payment].attempts));
  }

  lemma {:induction false} RunKeepsRows(f: Floor, moves: seq<Move>)
    ensures |Run(f, moves).rows| == |f.rows|
    decreases |moves|
  {
    if moves != [] {
      RunKeepsRows(Next(f, moves[0]), moves[1..]);
    }
  }

  // ---- Two workers can both pay ----

  lemma RunCons(f: Floor, m: Move, rest: seq<Move>)
    ensures Run(f, [m] + rest) == Run(Next(f, m), rest)
  {
    assert ([m] + rest)[1..] == rest;
  }

  lemma StepTo(f: Floor, m: Move, rest: seq<Move>, g: Floor)
    requires Next(f, m).rows == g.rows && Next(f, m).taxed == g.taxed && Next(f, m).workers == g.workers && Next(f, m).calls == g.calls
    ensures Run(f, [m] + rest) == Run(g, rest)
  {
    RunCons(f, m, rest);
    assert Next(f, m) == g;
  }

  function OneRow(attempts: nat): seq<Row> {
    [Row(PaymentStatus.Pending, attempts)]
  }

  /** One payment row and two workers. */
  function Two(attempts: nat, a: WorkerId, first: Worker, b: WorkerId, second: Worker, calls: seq<Call>): Floor {
    Floor(OneRow(attempts), {}, map[a := first, b := second], calls)
  }

  /** One worker reads and claims; the other reads after it, and claims too. */
  lemma BothClaim(a: WorkerId, b: WorkerId, page: seq<nat>, idle: Worker, rest: seq<Move>)
    requires a != b && page == [0] && idle == Worker([], Nothing)
    ensures Run(Two(0, a, idle, b, idle, []), [ReadList(a, page)] + ([Claim(a)] + ([ReadList(b, page)] + ([Claim(b)] + rest))))
            == Run(Two(2, a, Worker([], Disbursing(0, 1)), b, Worker([], Disbursing(0, 2)), []), rest)
  {
    var disbursing := Worker([], Disbursing(0, 1));
    var read0, read1 := Worker([Read(0, 0)], Nothing), Worker([Read(0, 1)], Nothing);
    assert read0.list[1..] == [] && read1.list[1..] == [];
    ReadsOne(OneRow(0), page);
    ReadsOne(OneRow(1), page);
    var m4 := [Claim(b)] + rest;
    var m3 := [ReadList(b, page)] + m4;
    StepTo(Two(0, a, idle, b, idle, []), ReadList(a, page), [Claim(a)] + m3, Two(0, a, read0, b, idle, []));
    StepTo(Two(0, a, read0, b, idle, []), Claim(a), m3, Two(1, a, disbursing, b, idle, []));
    StepTo(Two(1, a, disbursing, b, idle, []), ReadList(b, page), m4, Two(1, a, disbursing, b, read1, []));
    StepTo(Two(1, a, disbursing, b, read1, []), Claim(b), rest, Two(2, a, disbursing, b, Worker([], Disbursing(0, 2)), []));
  }

  lemma BothPay(a: WorkerId, b: WorkerId, first: Worker, second: Worker)
    requires a != b && first == Worker([], Disbursing(0, 1)) && second == Worker([], Disbursing(0, 2))
    ensures Run(Two(2, a, first, b, second, []), [Disburse(a, true)] + ([Disburse(b, true)] + [])).calls
            == [Call(0, 1, true), Call(0, 2, true)]
  {
    var recording := Worker([], Recording(0, 1));
    var one := [Call(0, 1, true)];
    StepTo(Two(2, a, first, b, second, []), Disburse(a, true), [Disburse(b, true)] + [], Two(2, a, recording, b, second, one));
    StepTo(Two(2, a, recording, b, second, one), Disburse(b, true), [],
           Two(2, a, recording, b, Worker([], Recording(0, 2)), [Call(0, 1, true), Call(0, 2, true)]));
  }

  /**
   A claim does not change the row's status, so a worker that reads the row after another
   worker's claim can claim it again: two overlapping runs can both pay one coupon.
   */
  lemma OverlappingRunsPayTwice(a: WorkerId, b: WorkerId) returns (moves: seq<Move>)
    requires a != b
    ensures var f := Two(0, a, Worker([], Nothing), b, Worker([], Nothing), []);
            Opening(f) && Run(f, moves).calls == [Call(0, 1, true), Call(0, 2, true)]
  {
    var page := [0];
    var pay := [Disburse(a, true)] + ([Disburse(b, true)] + []);
    moves := [ReadList(a, page)] + ([Claim(a)] + ([ReadList(b, page)] + ([Claim(b)] + pay)));
    BothClaim(a, b, page, Worker([], Nothing), pay);
    BothPay(a, b, Worker([], Disbursing(0, 1)), Worker([], Disbursing(0, 2)));
  }

  lemma ReadsOne(rows: seq<Row>, page: seq<nat>)
    requires |rows| == 1 && Owed(rows[0]) && rows[0].attempts < MAX_ATTEMPTS && page == [0]
    ensures Listed(rows, page) == [Read(0, rows[0].attempts)]
  {
    assert page[..0] == [];
    assert Listed(rows, page[..0]) == [];
  }

  /**
   The converse: wherever a worker is disbursing a payment that is still outstanding and has
   attempts left, another idle worker that reads it now is enough for a second credit.
   */
  lemma ReadingBusyPaymentPaysTwice(f: Floor, a: WorkerId, b: WorkerId, p: nat, attempt: nat, page: seq<nat>)
    returns (moves: seq<Move>)
    requires a != b && a in f.workers && b in f.workers && Idle(f.workers[b])
    requires f.workers[a].doing == Disbursing(p, attempt)
    requires p < |f.rows| && Owed(f.rows[p]) && f.rows[p].attempts < MAX_ATTEMPTS && page == [p]
    ensures moves != [] && moves[0] == ReadList(b, page)
    ensures Run(f, moves).calls == f.calls + [Call(p, attempt, true), Call(p, f.rows[p].attempts + 1, true)]
  {
    var n := f.rows[p].attempts;
    var m4: seq<Move> := [Disburse(b, true)] + [];
    var m3 := [Disburse(a, true)] + m4;
    moves := [ReadList(b, page)] + ([Claim(b)] + m3);
    var f2 := ReadAndClaim(f, b, p, page, m3);
    var f3 := f2.(workers := f2.workers[a := f.workers[a].(doing := Recording(p, attempt))], calls := f.calls + [Call(p, attempt, true)]);
    var f4 := f3.(workers := f3.workers[b := Worker([], Recording(p, n + 1))], calls := f3.calls + [Call(p, n + 1, true)]);
    StepTo(f2, Disburse(a, true), m4, f3);
    StepTo(f3, Disburse(b, true), [], f4);
  }

  /** The same where the first credit is made and not yet recorded. */
  lemma ReadingCreditedPaymentPaysAgain(f: Floor, a: WorkerId, b: WorkerId, p: nat, page: seq<nat>) returns (moves: seq<Move>)
    requires a != b && a in f.workers && b in f.workers && Idle(f.workers[b])
    requires f.workers[a].doing.Recording? && f.workers[a].doing.payment == p
    requires p < |f.rows| && Owed(f.rows[p]) && f.rows[p].attempts < MAX_ATTEMPTS && page == [p]
    ensures moves != [] && moves[0] == ReadList(b, page)
    ensures Run(f, moves).calls == f.calls + [Call(p, f.rows[p].attempts + 1, true)]
  {
    var n := f.rows[p].attempts;
    var m3: seq<Move> := [Disburse(b, true)] + [];
    moves := [ReadList(b, page)] + ([Claim(b)] + m3);
    var f2 := ReadAndClaim(f, b, p, page, m3);
    var f3 := f2.(workers := f2.workers[b := Worker([], Recording(p, n + 1))], calls := f.calls + [Call(p, n + 1, true)]);
    StepTo(f2, Disburse(b, true), [], f3);
  }

  /**
   And where the first attempt has failed: its failure is written without looking, over the
   paid status of the second, so a credited and taxed payment ends up outstanding or escalated.
   */
  lemma ReadingFailingPaymentLosesPaid(f: Floor, a: WorkerId, b: WorkerId, p: nat, attempt: nat, page: seq<nat>)
    returns (moves: seq<Move>)
    requires a != b && a in f.workers && b in f.workers && Idle(f.workers[b])
    requires f.workers[a].doing == Failing(p, attempt) && p !in f.taxed
    requires p < |f.rows| && Owed(f.rows[p]) && f.rows[p].attempts < MAX_ATTEMPTS && page == [p]
    ensures moves != [] && moves[0] == ReadList(b, page)
    ensures var g := Run(f, moves);
            && g.calls == f.calls + [Call(p, f.rows[p].attempts + 1, true)] && p in g.taxed
            && p < |g.rows| && g.rows[p].status != Paid
  {
    var n := f.rows[p].attempts;
    var m5: seq<Move> := [RecordFailure(a)] + [];
    var m4 := [Record(b)] + m5;
    var m3 := [Disburse(b, true)] + m4;
    moves := [ReadList(b, page)] + ([Claim(b)] + m3);
    var f2 := ReadAndClaim(f, b, p, page, m3);
    var f3 := f2.(workers := f2.workers[b := Worker([], Recording(p, n + 1))], calls := f.calls + [Call(p, n + 1, true)]);
    var f4 := f3.(rows := f3.rows[p := f3.rows[p].(status := Paid)], taxed := f.taxed + {p},
                  workers := f3.workers[b := Worker([], Nothing)]);
    var f5 := f4.(rows := f4.rows[p := f4.rows[p].(status := if attempt >= MAX_ATTEMPTS then Escalated else Retry)],
                  workers := f4.workers[a := f.workers[a].(doing := Nothing)]);
    StepTo(f2, Disburse(b, true), m4, f3);
    StepTo(f3, Record(b), m5, f4);
    StepTo(f4, RecordFailure(a), [], f5);
  }

  lemma ReadAndClaim(f: Floor, b: WorkerId, p: nat, page: seq<nat>, rest: seq<Move>) returns (g: Floor)
    requires b in f.workers && Idle(f.workers[b])
    requires p < |f.rows| && Owed(f.rows[p]) && f.rows[p].attempts < MAX_ATTEMPTS && page == [p]
    ensures Run(f, [ReadList(b, page)] + ([Claim(b)] + rest)) == Run(g, rest)
    ensures g == f.(rows := f.rows[p := f.rows[p].(attempts := f.rows[p].attempts + 1)],
                    workers := f.workers[b := Worker([], Disbursing(p, f.rows[p].attempts + 1))])
  {
    var n := f.rows[p].attempts;
    var read := Worker([Read(p, n)], Nothing);
    assert read.list[1..] == [];
    ReadsPayment(f.rows, page, p);
    var f1 := f.(workers := f.workers[b := read]);
    g := f1.(rows := f.rows[p := f.rows[p].(attempts := n + 1)], workers := f.workers[b := Worker([], Disbursing(p, n + 1))]);
    StepTo(f, ReadList(b, page), [Claim(b)] + rest, f1);
    StepTo(f1, Claim(b), rest, g);
  }

  lemma ReadsPayment(rows: seq<Row>, page: seq<nat>, p: nat)
    requires p < |rows| && Owed(rows[p]) && rows[p].attempts < MAX_ATTEMPTS && page == [p]
    ensures Listed(rows, page) == [Read(p, rows[p].attempts)]
  {
    assert page[..0] == [];
    assert Listed(rows, page[..0]) == [];
  }

  // ---- When nobody reads a payment that is in another's hands ----

  predicate Idle(worker: Worker) {
    worker.list == [] && worker.doing == Nothing
  }

  predicate BusyWith(worker: Worker, payment: nat) {
    worker.doing != Nothing && worker.doing.payment == payment
  }

  /**
   No worker reads a page with a payment another worker is in the middle of, and none stops
   between a credit and its record. Otherwise runs may overlap as they like.
   */
  predicate Careful(f: Floor, m: Move) {
    && (m.ReadList? ==> forall w :: w in f.workers && w != m.worker && f.workers[w].doing != Nothing ==>
          f.workers[w].doing.payment !in m.page)
    && (m.Stop? && m.worker in f.workers ==> !f.workers[m.worker].doing.Recording?)
  }

  predicate CarefulRun(f: Floor, moves: seq<Move>)
    decreases |moves|
  {
    moves != [] ==> Careful(f, moves[0]) && CarefulRun(Next(f, moves[0]), moves[1..])
  }

  /** Every reading of the payment in the list is older than its present number of attempts. */
  predicate Stale(list: seq<Read>, payment: nat, attempts: nat) {
    forall read :: read in list && read.payment == payment ==> read.attempts < attempts
  }

  /** Each payment is in the hands of at most one worker. */
  ghost predicate InOneHand(f: Floor) {
    forall v, w :: v in f.workers && w in f.workers && v != w && f.workers[v].doing != Nothing ==>
      !BusyWith(f.workers[w], f.workers[v].doing.payment)
  }

  /** What is in somebody's hands cannot be claimed from any list. */
  ghost predicate OutOfReach(f: Floor) {
    forall v, w :: v in f.workers && w in f.workers && f.workers[v].doing != Nothing && f.workers[v].doing.payment < |f.rows| ==>
      Stale(f.workers[w].list, f.workers[v].doing.payment, f.rows[f.workers[v].doing.payment].attempts)
  }

  /** Nobody's list is ahead of the rows. */
  ghost predicate ListsRead(f: Floor) {
    forall w, read :: w in f.workers && read in f.workers[w].list ==>
      read.payment < |f.rows| && read.attempts <= f.rows[read.payment].attempts
  }

  predicate Credited(calls: seq<Call>, payment: nat) {
    exists k :: 0 <= k < |calls| && calls[k].payment == payment && calls[k].credited
  }

  predicate BeingRecorded(workers: map<WorkerId, Worker>, payment: nat) {
    exists w :: w in workers && workers[w].doing.Recording? && workers[w].doing.payment == payment
  }

  /** No payment has two credits. */
  ghost predicate CreditsDistinct(calls: seq<Call>) {
    forall k, m :: 0 <= k < m < |calls| && calls[k].credited && calls[m].credited ==> calls[k].payment != calls[m].payment
  }

  /** A payment is paid and taxed together, and credited exactly when that is done or about to be recorded. */
  ghost predicate PaidOnce(f: Floor) {
    && CreditsDistinct(f.calls)
    && (forall i :: i in f.taxed ==> i < |f.rows|)
    && (forall i :: 0 <= i < |f.rows| ==>
          && (f.rows[i].status == Paid <==> i in f.taxed)
          && (Credited(f.calls, i) <==> i in f.taxed || BeingRecorded(f.workers, i)))
  }

  /** The payment a worker is in the middle of is not settled, and credited only if that is being recorded. */
  ghost predicate BusyUnsettled(f: Floor) {
    forall w :: w in f.workers && f.workers[w].doing != Nothing ==>
      && f.workers[w].doing.payment < |f.rows|
      && f.workers[w].doing.payment !in f.taxed
      && (!f.workers[w].doing.Recording? ==> !Credited(f.calls, f.workers[w].doing.payment))
  }

  ghost predicate Sound(f: Floor) {
    InOneHand(f) && OutOfReach(f) && ListsRead(f) && PaidOnce(f) && BusyUnsettled(f)
  }

  lemma {:induction false} ListedFromPage(rows: seq<Row>, page: seq<nat>)
    ensures forall read :: read in Listed(rows, page) ==>
              read.payment in page && read.payment < |rows| && read.attempts == rows[read.payment].attempts
  {
    if page != [] {
      ListedFromPage(rows, page[..|page| - 1]);
    }
  }

  lemma ReadKeepsHands(f: Floor, m: Move)
    requires InOneHand(f) && OutOfReach(f) && ListsRead(f) && Careful(f, m) && m.ReadList?
    ensures InOneHand(Next(f, m)) && OutOfReach(Next(f, m)) && ListsRead(Next(f, m))
  {
    ListedFromPage(f.rows, m.page);
  }

  /** Nothing new in any list, no attempts changed, nothing new in anybody's hands. */
  ghost predicate Quieter(f: Floor, g: Floor) {
    && g.workers.Keys == f.workers.Keys && |g.rows| == |f.rows|
    && (forall i :: 0 <= i < |f.rows| ==> g.rows[i].attempts == f.rows[i].attempts)
    && (forall w, read :: w in f.workers && read in g.workers[w].list ==> read in f.workers[w].list)
    && (forall w :: w in f.workers && g.workers[w].doing != Nothing ==>
          f.workers[w].doing != Nothing && g.workers[w].doing.payment == f.workers[w].doing.payment)
  }

  lemma QuieterKeepsHands(f: Floor, g: Floor)
    requires InOneHand(f) && OutOfReach(f) && ListsRead(f) && Quieter(f, g)
    ensures InOneHand(g) && OutOfReach(g) && ListsRead(g)
  {
  }

  lemma OtherIsQuieter(f: Floor, m: Move)
    requires !m.ReadList? && !m.Claim?
    ensures Quieter(f, Next(f, m))
  {
  }

  lemma LostClaimIsQuieter(f: Floor, m: Move)
    requires m.Claim? && Next(f, m).rows == f.rows
    ensures Quieter(f, Next(f, m))
  {
  }

  /** A won claim raises the attempts past every reading, and takes the payment into one hand. */
  lemma WonClaimKeepsHands(f: Floor, w: WorkerId)
    requires InOneHand(f) && OutOfReach(f) && ListsRead(f)
    requires w in f.workers && f.workers[w].list != [] && f.workers[w].doing == Nothing
    requires var read := f.workers[w].list[0]; read.payment < |f.rows| && f.rows[read.payment].attempts == read.attempts
    ensures var read, rest := f.workers[w].list[0], f.workers[w].list[1..];
            var g := WithWorker(f.(rows := f.rows[read.payment := f.rows[read.payment].(attempts := read.attempts + 1)]), w,
                                Worker(rest, Disbursing(read.payment, read.attempts + 1)));
            InOneHand(g) && OutOfReach(g) && ListsRead(g)
  {
    var read := f.workers[w].list[0];
    assert read in f.workers[w].list;
    forall v | v in f.workers && f.workers[v].doing != Nothing
      ensures f.workers[v].doing.payment != read.payment
    {
      var p := f.workers[v].doing.payment;
      assert p < |f.rows| ==> Stale(f.workers[w].list, p, f.rows[p].attempts);
    }
  }

  lemma ClaimKeepsHands(f: Floor, m: Move)
    requires InOneHand(f) && OutOfReach(f) && ListsRead(f) && m.Claim?
    ensures InOneHand(Next(f, m)) && OutOfReach(Next(f, m)) && ListsRead(Next(f, m))
  {
    if m.worker in f.workers && f.workers[m.worker].list != [] && f.workers[m.worker].doing == Nothing {
      var read := f.workers[m.worker].list[0];
      if read.payment < |f.rows| && Owed(f.rows[read.payment]) && f.rows[read.payment].attempts == read.attempts {
        WonClaimKeepsHands(f, m.worker);
      } else {
        LostClaimIsQuieter(f, m);
        QuieterKeepsHands(f, Next(f, m));
      }
    }
  }

  lemma CarefulMoveKeepsHands(f: Floor, m: Move)
    requires InOneHand(f) && OutOfReach(f) && ListsRead(f) && Careful(f, m)
    ensures InOneHand(Next(f, m)) && OutOfReach(Next(f, m)) && ListsRead(Next(f, m))
  {
    if Next(f, m) != f {
      match m
      case ReadList(w, page) => ReadKeepsHands(f, m);
      case Claim(w) => ClaimKeepsHands(f, m);
      case _ =>
        OtherIsQuieter(f, m);
        QuieterKeepsHands(f, Next(f, m));
    }
  }

  lemma CallAdded(calls: seq<Call>, c: Call, payment: nat)
    ensures Credited(calls + [c], payment) <==> Credited(calls, payment) || (c.payment == payment && c.credited)
  {
    var more := calls + [c];
    assert more[|calls|] == c;
    if Credited(calls, payment) {
      var k :| 0 <= k < |calls| && calls[k].payment == payment && calls[k].credited;
      assert more[k] == calls[k];
    }
  }

  /** Only worker `w` has changed what it is doing. */
  predicate OnlyMoved(workers: map<WorkerId, Worker>, after: map<WorkerId, Worker>, w: WorkerId) {
    && w in workers && after.Keys == workers.Keys
    && (forall v :: v in workers && v != w ==> after[v].doing == workers[v].doing)
  }

  lemma NotRecordingMoves(workers: map<WorkerId, Worker>, after: map<WorkerId, Worker>, w: WorkerId, payment: nat)
    requires OnlyMoved(workers, after, w)
    requires !workers[w].doing.Recording? || workers[w].doing.payment != payment
    requires !after[w].doing.Recording? || after[w].doing.payment != payment
    ensures BeingRecorded(after, payment) <==> BeingRecorded(workers, payment)
  {
    if BeingRecorded(workers, payment) {
      var v :| v in workers && workers[v].doing.Recording? && workers[v].doing.payment == payment;
      assert v in after && after[v].doing.Recording?;
    }
    if BeingRecorded(after, payment) {
      var v :| v in after && after[v].doing.Recording? && after[v].doing.payment == payment;
      assert v in workers && workers[v].doing.Recording?;
    }
  }

  /** A move that records, credits and settles nothing. */
  lemma QuietMoveKeepsPaidOnce(f: Floor, g: Floor, w: WorkerId)
    requires PaidOnce(f) && OnlyMoved(f.workers, g.workers, w)
    requires !f.workers[w].doing.Recording? && !g.workers[w].doing.Recording?
    requires g.taxed == f.taxed && g.calls == f.calls && |g.rows| == |f.rows|
    requires forall i :: 0 <= i < |f.rows| ==> (g.rows[i].status == Paid <==> f.rows[i].status == Paid)
    ensures PaidOnce(g)
  {
    forall i: nat
      ensures BeingRecorded(g.workers, i) <==> BeingRecorded(f.workers, i)
    {
      NotRecordingMoves(f.workers, g.workers, w, i);
    }
  }

  /** Only an uncredited payment that is in nobody's hands can be claimed. */
  lemma ClaimIsFresh(f: Floor, w: WorkerId)
    requires Sound(f) && w in f.workers && f.workers[w].list != []
    requires var read := f.workers[w].list[0];
             read.payment < |f.rows| && Owed(f.rows[read.payment]) && f.rows[read.payment].attempts == read.attempts
    ensures var p := f.workers[w].list[0].payment;
            && p !in f.taxed && !Credited(f.calls, p) && !BeingRecorded(f.workers, p)
            && forall v :: v in f.workers ==> !BusyWith(f.workers[v], p)
  {
  }

  lemma ClaimKeepsSound(f: Floor, m: Move)
    requires Sound(f) && m.Claim? && m.worker in f.workers && f.workers[m.worker].list != [] && f.workers[m.worker].doing == Nothing
    ensures PaidOnce(Next(f, m)) && BusyUnsettled(Next(f, m))
  {
    var read := f.workers[m.worker].list[0];
    if read.payment < |f.rows| && Owed(f.rows[read.payment]) && f.rows[read.payment].attempts == read.attempts {
      ClaimIsFresh(f, m.worker);
    }
    QuietMoveKeepsPaidOnce(f, Next(f, m), m.worker);
  }

  lemma DisburseKeepsSound(f: Floor, m: Move)
    requires Sound(f) && m.Disburse? && m.worker in f.workers && f.workers[m.worker].doing.Disbursing?
    ensures PaidOnce(Next(f, m)) && BusyUnsettled(Next(f, m))
  {
    var g := Next(f, m);
    var d := f.workers[m.worker].doing;
    forall i: nat
      ensures Credited(g.calls, i) <==> Credited(f.calls, i) || (i == d.payment && m.ok)
      ensures BeingRecorded(g.workers, i) <==> BeingRecorded(f.workers, i) || (i == d.payment && m.ok)
    {
      CallAdded(f.calls, Call(d.payment, d.attempt, m.ok), i);
      if i == d.payment && m.ok {
        assert g.workers[m.worker].doing.Recording?;
      } else {
        NotRecordingMoves(f.workers, g.workers, m.worker, i);
      }
    }
  }

  lemma RecordKeepsSound(f: Floor, m: Move)
    requires Sound(f) && m.Record? && m.worker in f.workers && f.workers[m.worker].doing.Recording?
    ensures PaidOnce(Next(f, m)) && BusyUnsettled(Next(f, m))
  {
    var g := Next(f, m);
    var p := f.workers[m.worker].doing.payment;
    forall i: nat
      ensures i != p ==> (BeingRecorded(g.workers, i) <==> BeingRecorded(f.workers, i))
      ensures i == p ==> BeingRecorded(f.workers, i)
    {
      if i != p {
        NotRecordingMoves(f.workers, g.workers, m.worker, i);
      }
    }
  }

  lemma CarefulMoveKeepsSound(f: Floor, m: Move)
    requires Sound(f) && Careful(f, m)
    ensures Sound(Next(f, m))
  {
    CarefulMoveKeepsHands(f, m);
    if m.worker in f.workers && Next(f, m) != f {
      match m
      case Claim(w) => ClaimKeepsSound(f, m);
      case Disburse(w, ok) => DisburseKeepsSound(f, m);
      case Record(w) => RecordKeepsSound(f, m);
      case _ => QuietMoveKeepsPaidOnce(f, Next(f, m), m.worker);
    }
  }

  lemma {:induction false} CarefulRunKeepsSound(f: Floor, moves: seq<Move>)
    requires Sound(f) && CarefulRun(f, moves)
    ensures Sound(Run(f, moves))
    decreases |moves|
  {
    if moves != [] {
      CarefulMoveKeepsSound(f, moves[0]);
      CarefulRunKeepsSound(Next(f, moves[0]), moves[1..]);
    }
  }

  /**
   However runs overlap, as long as no worker reads a payment another is in the middle of and
   none stops between a credit and its record, every payment is credited at most once, and
   once all workers are idle it is paid, with its tax record, exactly when it was credited.
   */
  lemma CarefulRunsPayOnce(f: Floor, moves: seq<Move>)
    requires Opening(f) && CarefulRun(f, moves)
    ensures CreditsDistinct(Run(f, moves).calls)
    ensures var g := Run(f, moves);
            (forall w :: w in g.workers ==> Idle(g.workers[w])) ==>
              forall i :: 0 <= i < |g.rows| ==>
                (g.rows[i].status == Paid <==> Credited(g.calls, i)) && (i in g.taxed <==> Credited(g.calls, i))
  {
    CarefulRunKeepsSound(f, moves);
  }

  // ---- Runs that never overlap ----

  /** A worker reads its list only when every other worker is idle, and none stops between credit and record. */
  predicate Serial(f: Floor, m: Move) {
    && (m.ReadList? ==> forall w :: w in f.workers && w != m.worker ==> Idle(f.workers[w]))
    && (m.Stop? && m.worker in f.workers ==> !f.workers[m.worker].doing.Recording?)
  }

  predicate SerialRun(f: Floor, moves: seq<Move>)
    decreases |moves|
  {
    moves != [] ==> Serial(f, moves[0]) && SerialRun(Next(f, moves[0]), moves[1..])
  }

  lemma {:induction false} SerialIsCareful(f: Floor, moves: seq<Move>)
    requires SerialRun(f, moves)
    ensures CarefulRun(f, moves)
    decreases |moves|
  {
    if moves != [] {
      SerialIsCareful(Next(f, moves[0]), moves[1..]);
    }
  }

  /** What the lease is for: runs that never overlap pay every coupon at most once. */
  lemma SerialRunsPayOnce(f: Floor, moves: seq<Move>)
    requires Opening(f) && SerialRun(f, moves)
    ensures CreditsDistinct(Run(f, moves).calls)
    ensures var g := Run(f, moves);
            (forall w :: w in g.workers ==> Idle(g.workers[w])) ==>
              forall i :: 0 <= i < |g.rows| ==>
                (g.rows[i].status == Paid <==> Credited(g.calls, i)) && (i in g.taxed <==> Credited(g.calls, i))
  {
    SerialIsCareful(f, moves);
    CarefulRunsPayOnce(f, moves);
  }
}
