/** What the aggregation of a well-bracketed grading run is worth. */
module GradingScore {
  import opened Grading
  import opened Options
  import opened RealArithmetic

  // ---------- the worth of a run, block by block ----------

  function SumPoints(cs: seq<Case>): real {
    if cs == [] then 0.0 else cs[0].points + SumPoints(cs[1..])
  }

  function SumTotal(cs: seq<Case>): real {
    if cs == [] then 0.0 else cs[0].total + SumTotal(cs[1..])
  }

  function SumTime(cs: seq<Case>): real {
    if cs == [] then 0.0 else cs[0].time + SumTime(cs[1..])
  }

  function LeastPoints(cs: seq<Case>): real
    requires cs != []
  {
    if |cs| == 1 then cs[0].points else RealMin(cs[0].points, LeastPoints(cs[1..]))
  }

  function GreatestTotal(cs: seq<Case>): real
    requires cs != []
  {
    if |cs| == 1 then cs[0].total else RealMax(cs[0].total, GreatestTotal(cs[1..]))
  }

  lemma {:induction false} LeastIsLeast(cs: seq<Case>)
    requires cs != []
    ensures forall i :: 0 <= i < |cs| ==> LeastPoints(cs) <= cs[i].points
    ensures exists i :: 0 <= i < |cs| && cs[i].points == LeastPoints(cs)
  {
    if |cs| > 1 {
      LeastIsLeast(cs[1..]);
      var i :| 0 <= i < |cs[1..]| && cs[1..][i].points == LeastPoints(cs[1..]);
      assert cs[0].points == LeastPoints(cs) || cs[i + 1].points == LeastPoints(cs);
      assert forall k :: 0 < k < |cs| ==> cs[k] == cs[1..][k - 1];
    } else {
      assert cs[0].points == LeastPoints(cs);
    }
  }

  lemma {:induction false} GreatestIsGreatest(cs: seq<Case>)
    requires cs != []
    ensures forall i :: 0 <= i < |cs| ==> cs[i].total <= GreatestTotal(cs)
    ensures exists i :: 0 <= i < |cs| && cs[i].total == GreatestTotal(cs)
  {
    if |cs| > 1 {
      GreatestIsGreatest(cs[1..]);
      var i :| 0 <= i < |cs[1..]| && cs[1..][i].total == GreatestTotal(cs[1..]);
      assert cs[0].total == GreatestTotal(cs) || cs[i + 1].total == GreatestTotal(cs);
      assert forall k :: 0 < k < |cs| ==> cs[k] == cs[1..][k - 1];
    } else {
      assert cs[0].total == GreatestTotal(cs);
    }
  }

  function BlockPoints(b: Block): real {
    var cs := CasesOf(b);
    if b.Loose? then SumPoints(cs) else if cs == [] then 0.0 else LeastPoints(cs)
  }

  function BlockTotal(b: Block): real {
    var cs := CasesOf(b);
    if b.Loose? then SumTotal(cs) else if cs == [] then 0.0 else GreatestTotal(cs)
  }

  function RunPoints(blocks: seq<Block>): real {
    if blocks == [] then 0.0 else BlockPoints(blocks[0]) + RunPoints(blocks[1..])
  }

  function RunTotal(blocks: seq<Block>): real {
    if blocks == [] then 0.0 else BlockTotal(blocks[0]) + RunTotal(blocks[1..])
  }

  function RunTime(blocks: seq<Block>): real {
    if blocks == [] then 0.0 else SumTime(CasesOf(blocks[0])) + RunTime(blocks[1..])
  }

  // ---------- adding the rows of one block ----------

  lemma {:induction false} AddAllConcat(a: Acc, rows: seq<Row>, more: seq<Row>)
    ensures AddAll(a, rows + more) == AddAll(AddAll(a, rows), more)
    decreases |rows|
  {
    if rows == [] {
      assert rows + more == more;
    } else {
      assert (rows + more)[1..] == rows[1..] + more;
      AddAllConcat(Add(a, rows[0]), rows[1..], more);
    }
  }

  lemma {:induction false} AddLoose(a: Acc, cs: seq<Case>)
    ensures var z := AddAll(a, RowsOf(cs, None));
      && z.points == a.points + SumPoints(cs) && z.total == a.total + SumTotal(cs)
      && z.time == a.time + SumTime(cs) && z.batches == a.batches
    decreases |cs|
  {
    if cs != [] {
      var rows := RowsOf(cs, None);
      assert rows[1..] == RowsOf(cs[1..], None);
      AddLoose(Add(a, rows[0]), cs[1..]);
    }
  }

  /** One row of a batch. */
  lemma AddOne(a: Acc, b: nat, c: Case)
    requires b > 0
    ensures var z := Add(a, RowOf(c, Some(b)));
      && z.points == a.points && z.total == a.total && z.time == a.time + c.time
      && z.batches == Put(a.batches, b, c.points, c.total)
  {
  }

  lemma FirstRow(a: Acc, batch: Option<nat>, cs: seq<Case>)
    requires cs != []
    ensures AddAll(a, RowsOf(cs, batch)) == AddAll(Add(a, RowOf(cs[0], batch)), RowsOf(cs[1..], batch))
  {
    assert RowsOf(cs, batch)[1..] == RowsOf(cs[1..], batch);
  }

  /** Adding to a batch that already holds (p, t). */
  lemma {:induction false} AddToBatch(a: Acc, b: nat, cs: seq<Case>)
    requires b > 0 && b in a.batches
    ensures var z := AddAll(a, RowsOf(cs, Some(b)));
      && z.points == a.points && z.total == a.total && z.time == a.time + SumTime(cs)
      && z.batches == if cs == [] then a.batches
                      else a.batches[b := (RealMin(a.batches[b].0, LeastPoints(cs)),
                                           RealMax(a.batches[b].1, GreatestTotal(cs)))]
    decreases |cs|
  {
    if cs != [] {
      var first := Add(a, RowOf(cs[0], Some(b)));
      FirstRow(a, Some(b), cs);
      AddOne(a, b, cs[0]);
      AddToBatch(first, b, cs[1..]);
    }
  }

  /** Adding a batch that is new. */
  lemma AddBatch(a: Acc, b: nat, cs: seq<Case>)
    requires b > 0 && b !in a.batches && cs != []
    ensures var z := AddAll(a, RowsOf(cs, Some(b)));
      && z.points == a.points && z.total == a.total && z.time == a.time + SumTime(cs)
      && z.batches == a.batches[b := (LeastPoints(cs), GreatestTotal(cs))]
  {
    FirstRow(a, Some(b), cs);
    AddOne(a, b, cs[0]);
    AddToBatch(Add(a, RowOf(cs[0], Some(b))), b, cs[1..]);
  }

  lemma SumExtended(m: map<nat, (real, real)>, b: nat, p: real, t: real)
    requires b !in m
    ensures SumBatches(m[b := (p, t)]) == (SumBatches(m).0 + p, SumBatches(m).1 + t)
  {
    SumBatchesStep(m[b := (p, t)], b);
    assert m[b := (p, t)] - {b} == m;
  }

  lemma AddBlock(a: Acc, b: Block, n: nat)
    requires forall k :: k in a.batches ==> k <= n
    ensures var z := AddAll(a, BlockRows(b, n));
      && z.points + SumBatches(z.batches).0 == a.points + SumBatches(a.batches).0 + BlockPoints(b)
      && z.total + SumBatches(z.batches).1 == a.total + SumBatches(a.batches).1 + BlockTotal(b)
      && z.time == a.time + SumTime(CasesOf(b))
      && (forall k :: k in z.batches ==> k <= Numbered(b, n))
  {
    var cs := CasesOf(b);
    if b.Loose? {
      AddLoose(a, cs);
    } else if cs != [] {
      AddBatch(a, n + 1, cs);
      SumExtended(a.batches, n + 1, LeastPoints(cs), GreatestTotal(cs));
    }
  }

  /** All blocks: the batch blocks are new batches, numbered above those already there. */
  lemma {:induction false} AddBlocks(a: Acc, blocks: seq<Block>, n: nat)
    requires forall b :: b in a.batches ==> b <= n
    ensures var z := AddAll(a, Expected(blocks, n));
      && z.points + SumBatches(z.batches).0 == a.points + SumBatches(a.batches).0 + RunPoints(blocks)
      && z.total + SumBatches(z.batches).1 == a.total + SumBatches(a.batches).1 + RunTotal(blocks)
      && z.time == a.time + RunTime(blocks)
    decreases |blocks|
  {
    if blocks != [] {
      var b := blocks[0];
      AddBlock(a, b, n);
      AddAllConcat(a, BlockRows(b, n), Expected(blocks[1..], Numbered(b, n)));
      AddBlocks(AddAll(a, BlockRows(b, n)), blocks[1..], Numbered(b, n));
    }
  }

  // ---------- severity ----------

  /** Which of the seven bits give which status: each status needs its own bit and none of those
      that take precedence, in the order TLE, MLE, OLE, RTE, IR, WA, SC. */
  lemma StatusExactly(status: bv8)
    ensures StatusOf(status) == TLE <==> status & 0x04 == 0x04
    ensures StatusOf(status) == MLE <==> status & 0x0C == 0x08
    ensures StatusOf(status) == OLE <==> status & 0x4C == 0x40
    ensures StatusOf(status) == RTE <==> status & 0x4E == 0x02
    ensures StatusOf(status) == IR <==> status & 0x5E == 0x10
    ensures StatusOf(status) == WA <==> status & 0x5F == 0x01
    ensures StatusOf(status) == SC <==> status & 0x7F == 0x20
    ensures StatusOf(status) == AC <==> status & 0x7F == 0x00
  {
  }

  /** Every status has its place in the list, so looking it up never fails. */
  lemma SeverityFinds(s: Status)
    ensures Severity(s) < |STATUS_CODES| && STATUS_CODES[Severity(s)] == s
  {
  }

  lemma {:induction false} StatusIsMost(a: Acc, rows: seq<Row>)
    ensures var z := AddAll(a, rows);
      && z.status >= a.status
      && (forall r :: r in rows ==> Severity(r.status) <= z.status)
      && (z.status == a.status || exists r :: r in rows && Severity(r.status) == z.status)
    decreases |rows|
  {
    if rows != [] {
      StatusIsMost(Add(a, rows[0]), rows[1..]);
      assert rows == [rows[0]] + rows[1..];
      assert rows[0] in rows;
    }
  }

  /** The stored memory is the greatest of the rows, and no less than zero. */
  lemma {:induction false} MemoryIsMost(a: Acc, rows: seq<Row>)
    ensures var z := AddAll(a, rows);
      && z.memory >= a.memory
      && (forall r :: r in rows ==> r.memory <= z.memory)
      && (z.memory == a.memory || exists r :: r in rows && r.memory == z.memory)
    decreases |rows|
  {
    if rows != [] {
      MemoryIsMost(Add(a, rows[0]), rows[1..]);
      assert rows == [rows[0]] + rows[1..];
      assert rows[0] in rows;
    }
  }

  /** The stored result is the most severe status of the rows, SC when there are none. */
  ghost predicate MostSevere(result: Status, rows: seq<Row>) {
    && (forall r :: r in rows ==> Severity(r.status) <= Severity(result))
    && (if rows == [] then result == SC else exists r :: r in rows && r.status == result)
  }

  lemma ResultIsMostSevere(rows: seq<Row>)
    ensures var z := AddAll(ZERO, rows);
      z.status < |STATUS_CODES| && MostSevere(STATUS_CODES[z.status], rows)
  {
    StatusIsMost(ZERO, rows);
    var z := AddAll(ZERO, rows);
    if rows != [] {
      if z.status == 0 { SeverityFinds(rows[0].status); assert Severity(rows[0].status) == 0 && rows[0] in rows; }
      else {
        var r :| r in rows && Severity(r.status) == z.status;
        SeverityFinds(r.status);
      }
    }
  }

  // ---------- the whole run ----------

  /** Whatever the handler held before, and in whatever order the stored rows are read back:
      the points are the unbatched points plus the least points of every batch, and so on. */
  lemma RunScore(h: Handler, blocks: seq<Block>, stored: seq<Row>)
    requires multiset(stored) == multiset(ReceiveAll(h, [GradingBegin] + Packets(blocks)).rows)
    ensures AddAll(ZERO, stored).status < |STATUS_CODES|
    ensures var o := Close(AddAll(ZERO, stored));
      && o.points == RunPoints(blocks) && o.total == RunTotal(blocks) && o.time == RunTime(blocks)
      && MostSevere(o.result, stored)
      && (forall r :: r in stored ==> r.memory <= o.memory)
      && (o.memory == 0.0 || exists r :: r in stored && r.memory == o.memory)
  {
    MemoryIsMost(ZERO, stored);
    RunRows(h, blocks);
    OrderIndependent(ZERO, stored, Expected(blocks, 0));
    AddBlocks(ZERO, blocks, 0);
    assert SumBatches(map[]) == (0.0, 0.0);
    ResultIsMostSevere(stored);
  }

  predicate Has(cs: seq<Case>, s: Status) {
    exists c :: c in cs && StatusOf(c.status) == s
  }

  /** The statuses of the cases, the worst one first. */
  function Worst(cs: seq<Case>): Status {
    if Has(cs, OLE) then OLE
    else if Has(cs, RTE) then RTE
    else if Has(cs, IR) then IR
    else if Has(cs, TLE) then TLE
    else if Has(cs, MLE) then MLE
    else if Has(cs, WA) then WA
    else if Has(cs, AC) then AC
    else SC
  }

  lemma WorstIs(cs: seq<Case>, rows: seq<Row>, result: Status)
    requires StoresAll(rows, cs) && MostSevere(result, rows)
    ensures result == Worst(cs)
  {
    forall c | c in cs ensures Severity(StatusOf(c.status)) <= Severity(result) {
      var i :| 0 <= i < |cs| && cs[i] == c;
      assert Stores(rows[i], c) && rows[i] in rows;
    }
    if rows != [] {
      var r :| r in rows && r.status == result;
      var i :| 0 <= i < |rows| && rows[i] == r;
      assert Stores(rows[i], cs[i]) && cs[i] in cs;
      assert Has(cs, result);
    }
    WorstFound(cs, result);
  }

  lemma WorstFound(cs: seq<Case>, result: Status)
    requires forall c :: c in cs ==> Severity(StatusOf(c.status)) <= Severity(result)
    requires if cs == [] then result == SC else Has(cs, result)
    ensures result == Worst(cs)
  {
    assert forall s :: Has(cs, s) ==> Severity(s) <= Severity(result);
  }

  /** The result is the worst status of the cases in the packets, and the memory the greatest. */
  lemma RunResult(h: Handler, blocks: seq<Block>, stored: seq<Row>)
    requires multiset(stored) == multiset(ReceiveAll(h, [GradingBegin] + Packets(blocks)).rows)
    ensures AddAll(ZERO, stored).status < |STATUS_CODES|
    ensures var o, cs := Close(AddAll(ZERO, stored)), AllCases(blocks);
      && o.result == Worst(cs)
      && (forall c :: c in cs ==> c.memory <= o.memory)
      && o.memory >= 0.0 && (o.memory == 0.0 || exists c :: c in cs && c.memory == o.memory)
  {
    var rows, cs := ReceiveAll(h, [GradingBegin] + Packets(blocks)).rows, AllCases(blocks);
    RunStores(h, blocks);
    OrderIndependent(ZERO, stored, rows);
    ResultIsMostSevere(rows);
    WorstIs(cs, rows, Close(AddAll(ZERO, rows)).result);
    MemoryIsMost(ZERO, rows);
    forall c | c in cs ensures c.memory <= AddAll(ZERO, rows).memory {
      var i :| 0 <= i < |cs| && cs[i] == c;
      assert Stores(rows[i], c) && rows[i] in rows;
    }
    if r :| r in rows && r.memory == AddAll(ZERO, rows).memory {
      var i :| 0 <= i < |rows| && rows[i] == r;
      assert Stores(rows[i], cs[i]) && cs[i] in cs;
    }
  }

  // ---------- points never exceed the total ----------

  predicate Bounded(cs: seq<Case>) {
    forall i :: 0 <= i < |cs| ==> 0.0 <= cs[i].points <= cs[i].total
  }

  ghost predicate AllBounded(blocks: seq<Block>) {
    forall i :: 0 <= i < |blocks| ==> Bounded(CasesOf(blocks[i]))
  }

  lemma {:induction false} SumBounded(cs: seq<Case>)
    requires Bounded(cs)
    ensures 0.0 <= SumPoints(cs) <= SumTotal(cs)
  {
    if cs != [] { SumBounded(cs[1..]); }
  }

  lemma LeastBelowGreatest(cs: seq<Case>)
    requires Bounded(cs) && cs != []
    ensures 0.0 <= LeastPoints(cs) <= GreatestTotal(cs)
  {
    LeastIsLeast(cs);
    GreatestIsGreatest(cs);
  }

  lemma {:induction false} RunBounded(blocks: seq<Block>)
    requires AllBounded(blocks)
    ensures 0.0 <= RunPoints(blocks) <= RunTotal(blocks)
  {
    if blocks != [] {
      RunBounded(blocks[1..]);
      var cs := CasesOf(blocks[0]);
      if blocks[0].Loose? { SumBounded(cs); }
      else if cs != [] {
        LeastBelowGreatest(cs);
      }
    }
  }

  ghost predicate Rounding(round: real -> real) {
    round(0.0) == 0.0 && forall x, y :: x <= y ==> round(x) <= round(y)
  }

  /** The stored points of the submission, from the aggregate and the worth of the problem. */
  function SubmissionPoints(round1: real -> real, round3: real -> real, o: Outcome, worth: real, partial: bool): real {
    var points, total := round1(o.points), round1(o.total);
    var sub := round3(if total > 0.0 then points / total * worth else 0.0);
    if !partial && sub != worth then 0.0 else sub
  }

  /** With each case worth at most its total the stored points stay between 0 and the rounded
      worth of the problem; without partial credit they are 0 or the worth itself. */
  lemma SubmissionBounded(round1: real -> real, round3: real -> real, o: Outcome, worth: real, partial: bool)
    requires Rounding(round1) && Rounding(round3) && worth >= 0.0
    requires 0.0 <= o.points <= o.total
    ensures var sub := SubmissionPoints(round1, round3, o, worth, partial);
      && 0.0 <= round1(o.points) <= round1(o.total)
      && 0.0 <= sub <= round3(worth)
      && (!partial ==> sub == 0.0 || sub == worth)
  {
    var points, total := round1(o.points), round1(o.total);
    assert round3(0.0) <= round3(worth);
    if total > 0.0 {
      Portion(points, total, worth);
      assert round3(0.0) <= round3(points / total * worth) <= round3(worth);
    }
  }

  /** With partial credit the stored points are the rounded points' share of the worth, to within
      what rounding may err by. */
  lemma PartialCredit(round1: real -> real, round3: real -> real, o: Outcome, worth: real, err: real)
    requires Rounding(round3) && forall x :: x - err <= round3(x) <= x + err
    ensures var sub, points, total :=
              SubmissionPoints(round1, round3, o, worth, true), round1(o.points), round1(o.total);
      if total > 0.0 then
        Times(points, worth) - Times(err, total) <= Times(sub, total) <= Times(points, worth) + Times(err, total)
      else sub == 0.0
  {
    var points, total := round1(o.points), round1(o.total);
    if total > 0.0 {
      var share := points / total * worth;
      assert share * total == points * worth by { assert points / total * total == points; }
      WeakScale(total, share - err, round3(share));
      WeakScale(total, round3(share), share + err);
    }
  }

  /** When the full worth is stored, for any run: the worth is 0, or the rounded total is positive
      and the share of the rounded points rounds to the worth.  In particular, when points and
      total round alike, as they do for every perfect run but also for some others, exactly when
      the worth is 0, or the total does not round to 0 and rounding does not change the worth. */
  lemma FullWorthExact(round1: real -> real, round3: real -> real, o: Outcome, worth: real, partial: bool)
    requires Rounding(round1) && Rounding(round3) && worth >= 0.0
    requires 0.0 <= o.points <= o.total
    ensures var sub, points, total :=
              SubmissionPoints(round1, round3, o, worth, partial), round1(o.points), round1(o.total);
      && total >= 0.0
      && (sub == worth <==> worth == 0.0 || (total > 0.0 && round3(points / total * worth) == worth))
      && (points == total ==> (sub == worth <==> worth == 0.0 || (total > 0.0 && round3(worth) == worth)))
  {
    var points, total := round1(o.points), round1(o.total);
    assert round1(0.0) <= points <= total;
    if total > 0.0 { Portion(points, total, worth); }
  }

  /** What a full score stores instead: 0 without partial credit or when the total rounds to 0,
      else the rounded worth, which is more than the worth exactly when rounding goes up. */
  lemma FullScoreStores(round1: real -> real, round3: real -> real, o: Outcome, worth: real, partial: bool)
    requires Rounding(round1) && Rounding(round3) && worth >= 0.0
    requires 0.0 <= o.points == o.total
    ensures var sub := SubmissionPoints(round1, round3, o, worth, partial);
      && (sub != worth ==> sub == if partial && round1(o.total) > 0.0 then round3(worth) else 0.0)
      && (sub > worth <==> partial && round1(o.total) > 0.0 && round3(worth) > worth)
  {
    SubmissionBounded(round1, round3, o, worth, partial);
    if round1(o.total) > 0.0 { Portion(round1(o.points), round1(o.total), worth); }
  }

  /** Rounding to the nearest multiple of 1/n. */
  function Nearest(n: real, x: real): real
    requires n > 0.0
  {
    (x * n + 0.5).Floor as real / n
  }

  lemma NearestIsRounding(n: real)
    requires n > 0.0
    ensures Rounding((x: real) => Nearest(n, x))
  {
    forall x: real, y: real | x <= y ensures Nearest(n, x) <= Nearest(n, y) { NearestMonotone(n, x, y); }
  }

  lemma NearestMonotone(n: real, x: real, y: real)
    requires n > 0.0 && x <= y
    ensures Nearest(n, x) <= Nearest(n, y)
  {
    assert x * n <= y * n;
    FloorMonotone(x * n + 0.5, y * n + 0.5);
    Quotients((x * n + 0.5).Floor as real, (y * n + 0.5).Floor as real, n);
  }

  lemma FloorMonotone(x: real, y: real)
    requires x <= y
    ensures x.Floor as real <= y.Floor as real
  {
    assert x.Floor <= y.Floor;
  }

  lemma Quotients(p: real, q: real, n: real)
    requires p <= q && n > 0.0
    ensures p / n <= q / n
  {
    assert (q - p) / n >= 0.0;
  }

  /** Worths that three decimal places do not hold: a perfect submission is worth nothing without
      partial credit, and more than the problem with it.  A total that rounds to 0: a perfect
      submission is worth nothing either way.  A run that is not perfect but rounds like one is
      worth everything. */
  lemma FullWorthInputs(o: Outcome, partial: bool)
    requires o.points == o.total == 1.0
    ensures var round1, round3 := (x: real) => Nearest(10.0, x), (x: real) => Nearest(1000.0, x);
      && Rounding(round1) && Rounding(round3)
      && SubmissionPoints(round1, round3, o, 0.1234, false) == 0.0
      && SubmissionPoints(round1, round3, o, 0.0006, true) == 0.001
      && SubmissionPoints(round1, round3, o.(points := 0.04, total := 0.04), 10.0, partial) == 0.0
      && SubmissionPoints(round1, round3, o.(points := 0.96), 10.0, partial) == 10.0
  {
    NearestIsRounding(10.0);
    NearestIsRounding(1000.0);
    assert Nearest(10.0, 1.0) == 1.0 && Nearest(10.0, 0.96) == 1.0 && Nearest(10.0, 0.04) == 0.0;
    assert Nearest(1000.0, 10.0) == 10.0 && Nearest(1000.0, 0.0) == 0.0;
    assert (0.1234 * 1000.0 + 0.5).Floor == 123;
    assert (0.0006 * 1000.0 + 0.5).Floor == 1;
  }

  lemma Portion(points: real, total: real, worth: real)
    requires 0.0 <= points <= total && total > 0.0 && worth >= 0.0
    ensures 0.0 <= points / total * worth <= worth
    ensures points == total ==> points / total * worth == worth
  {
    var q := points / total;
    assert q * total == points;
    assert 0.0 <= q <= 1.0;
  }

  /** From packets to stored points: a well-bracketed run of cases each worth at most its total
      stores at most the rounded worth, and a full score stores the worth exactly when the worth
      is 0, or the total does not round to 0 and rounding does not change the worth. */
  lemma RunSubmissionBounded(h: Handler, blocks: seq<Block>, stored: seq<Row>,
                             round1: real -> real, round3: real -> real, worth: real, partial: bool)
    requires multiset(stored) == multiset(ReceiveAll(h, [GradingBegin] + Packets(blocks)).rows)
    requires AllBounded(blocks)
    requires Rounding(round1) && Rounding(round3) && worth >= 0.0
    ensures AddAll(ZERO, stored).status < |STATUS_CODES|
    ensures var sub := SubmissionPoints(round1, round3, Close(AddAll(ZERO, stored)), worth, partial);
      && 0.0 <= sub <= round3(worth)
      && (!partial ==> sub == 0.0 || sub == worth)
      && (RunPoints(blocks) == RunTotal(blocks) ==>
            (sub == worth <==> worth == 0.0 || (round1(RunTotal(blocks)) > 0.0 && round3(worth) == worth)))
  {
    RunScore(h, blocks, stored);
    RunBounded(blocks);
    var o := Close(AddAll(ZERO, stored));
    SubmissionBounded(round1, round3, o, worth, partial);
    FullWorthExact(round1, round3, o, worth, partial);
  }
}
