/** From the packets of one grading run to the stored score. */
module Grading {
  import opened Basics
  import opened Options
  import opened RealArithmetic

  // ---------- test case rows ----------

  datatype Status = SC | AC | WA | MLE | TLE | IR | RTE | OLE

  /** Position of a status in the list that orders them by severity. */
  function Severity(s: Status): nat {
    match s
    case SC => 0
    case AC => 1
    case WA => 2
    case MLE => 3
    case TLE => 4
    case IR => 5
    case RTE => 6
    case OLE => 7
  }

  const STATUS_CODES: seq<Status> := [SC, AC, WA, MLE, TLE, IR, RTE, OLE]

  /** The status a packet's bit set is stored as; only these seven bits are looked at. */
  function StatusOf(status: bv8): Status {
    if status & 4 != 0 then TLE
    else if status & 8 != 0 then MLE
    else if status & 64 != 0 then OLE
    else if status & 2 != 0 then RTE
    else if status & 16 != 0 then IR
    else if status & 1 != 0 then WA
    else if status & 32 != 0 then SC
    else AC
  }

  datatype Case = Case(position: nat, status: bv8, time: real, memory: real, points: real, total: real)

  datatype Row = Row(
    position: nat, status: Status, time: real, memory: real, points: real, total: real, batch: Option<nat>)

  function RowOf(c: Case, batch: Option<nat>): Row {
    Row(c.position, StatusOf(c.status), c.time, c.memory, c.points, c.total, batch)
  }

  function RowsOf(cs: seq<Case>, batch: Option<nat>): (rows: seq<Row>)
    ensures |rows| == |cs| && forall i :: 0 <= i < |cs| ==> rows[i] == RowOf(cs[i], batch)
  {
    seq(|cs|, i requires 0 <= i < |cs| => RowOf(cs[i], batch))
  }

  // ---------- packets ----------

  datatype Packet = GradingBegin | BatchBegin | BatchEnd | TestCases(cases: seq<Case>)

  /** What the handler keeps between packets, and the rows stored for the submission. */
  datatype Handler = Handler(batchId: Option<nat>, inBatch: bool, rows: seq<Row>)

  function Receive(h: Handler, p: Packet): Handler {
    match p
    case GradingBegin => h.(batchId := None, rows := [])
    case BatchBegin => h.(inBatch := true, batchId := Some(1 + if h.batchId.Some? then h.batchId.value else 0))
    case BatchEnd => h.(inBatch := false)
    case TestCases(cases) => h.(rows := h.rows + RowsOf(cases, if h.inBatch then h.batchId else None))
  }

  function ReceiveAll(h: Handler, ps: seq<Packet>): Handler
    decreases |ps|
  {
    if ps == [] then h else ReceiveAll(Receive(h, ps[0]), ps[1..])
  }

  /** The handler as an object: its fields are updated packet by packet. */
  class JudgeHandler {
    var batchId: Option<nat>
    var inBatch: bool
    var rows: seq<Row>

    ghost function Abs(): Handler
      reads this
    {
      Handler(batchId, inBatch, rows)
    }

    constructor ()
      ensures Abs() == Handler(None, false, [])
    {
      batchId, inBatch, rows := None, false, [];
    }

    method OnGradingBegin()
      modifies this
      ensures Abs() == Receive(old(Abs()), GradingBegin)
    {
      batchId := None;
      rows := [];
    }

    method OnBatchBegin()
      modifies this
      ensures Abs() == Receive(old(Abs()), BatchBegin)
    {
      inBatch := true;
      if batchId == None { batchId := Some(0); }
      batchId := Some(batchId.value + 1);
    }

    method OnBatchEnd()
      modifies this
      ensures Abs() == Receive(old(Abs()), BatchEnd)
    {
      inBatch := false;
    }

    method OnTestCase(updates: seq<Case>)
      modifies this
      ensures Abs() == Receive(old(Abs()), TestCases(updates))
      ensures rows[..|rows| - |updates|] == old(rows) && StoresAll(rows[|rows| - |updates|..], updates)
      ensures forall i :: |old(rows)| <= i < |rows| ==> rows[i].batch == if inBatch then batchId else None
    {
      var bulk: seq<Row> := [];
      for i := 0 to |updates|
        invariant bulk == RowsOf(updates, if inBatch then batchId else None)[..i]
      {
        bulk := bulk + [RowOf(updates[i], if inBatch then batchId else None)];
      }
      rows := rows + bulk;
    }
  }

  // ---------- well-bracketed runs ----------

  /** A run is a list of blocks: packets outside any batch, and batches of packets. */
  datatype Block = Loose(cases: seq<Case>) | Batch(packets: seq<seq<Case>>)

  function CasePackets(css: seq<seq<Case>>): seq<Packet> {
    if css == [] then [] else [TestCases(css[0])] + CasePackets(css[1..])
  }

  function PacketsOf(b: Block): seq<Packet> {
    match b
    case Loose(cases) => [TestCases(cases)]
    case Batch(css) => [BatchBegin] + CasePackets(css) + [BatchEnd]
  }

  function Packets(blocks: seq<Block>): seq<Packet> {
    if blocks == [] then [] else PacketsOf(blocks[0]) + Packets(blocks[1..])
  }

  function Concat(css: seq<seq<Case>>): seq<Case> {
    if css == [] then [] else css[0] + Concat(css[1..])
  }

  function CasesOf(b: Block): seq<Case> {
    match b
    case Loose(cases) => cases
    case Batch(css) => Concat(css)
  }

  function Numbered(b: Block, n: nat): nat { if b.Loose? then n else n + 1 }

  function BlockRows(b: Block, n: nat): seq<Row> {
    RowsOf(CasesOf(b), if b.Loose? then None else Some(n + 1))
  }

  /** The rows a run must leave: batch blocks are numbered n + 1, n + 2, ... and loose ones get
      no number. */
  function Expected(blocks: seq<Block>, n: nat): seq<Row> {
    if blocks == [] then [] else BlockRows(blocks[0], n) + Expected(blocks[1..], Numbered(blocks[0], n))
  }

  lemma {:induction false} ReceiveConcat(h: Handler, ps: seq<Packet>, qs: seq<Packet>)
    ensures ReceiveAll(h, ps + qs) == ReceiveAll(ReceiveAll(h, ps), qs)
    decreases |ps|
  {
    if ps == [] {
      assert ps + qs == qs;
    } else {
      assert (ps + qs)[1..] == ps[1..] + qs;
      ReceiveConcat(Receive(h, ps[0]), ps[1..], qs);
    }
  }

  lemma {:induction false} ReceiveCases(h: Handler, css: seq<seq<Case>>)
    ensures ReceiveAll(h, CasePackets(css)) ==
              h.(rows := h.rows + RowsOf(Concat(css), if h.inBatch then h.batchId else None))
    decreases |css|
  {
    var tag := if h.inBatch then h.batchId else None;
    if css == [] {
      assert h.rows + RowsOf(Concat(css), tag) == h.rows;
    } else {
      var g := Receive(h, TestCases(css[0]));
      ReceiveCases(g, css[1..]);
      assert CasePackets(css)[1..] == CasePackets(css[1..]);
      RowsConcat(h.rows, css[0], Concat(css[1..]), tag);
    }
  }

  lemma RowsConcat(rows: seq<Row>, cs: seq<Case>, ds: seq<Case>, tag: Option<nat>)
    ensures (rows + RowsOf(cs, tag)) + RowsOf(ds, tag) == rows + RowsOf(cs + ds, tag)
  {
  }

  function Count(h: Handler): nat {
    if h.batchId.Some? then h.batchId.value else 0
  }

  lemma ReceiveBlock(h: Handler, b: Block)
    requires h.inBatch ==> h.batchId == None
    ensures var g := ReceiveAll(h, PacketsOf(b));
      && g.rows == h.rows + BlockRows(b, Count(h))
      && Count(g) == Numbered(b, Count(h))
      && (g.inBatch ==> g.batchId == None)
  {
    match b
    case Loose(cases) =>
      assert PacketsOf(b)[1..] == [];
    case Batch(css) =>
      var g := Receive(h, BatchBegin);
      assert PacketsOf(b) == [BatchBegin] + (CasePackets(css) + [BatchEnd]);
      assert PacketsOf(b)[1..] == CasePackets(css) + [BatchEnd];
      ReceiveConcat(g, CasePackets(css), [BatchEnd]);
      ReceiveCases(g, css);
  }

  lemma {:induction false} ReceiveBlocks(h: Handler, blocks: seq<Block>)
    requires h.inBatch ==> h.batchId == None
    ensures ReceiveAll(h, Packets(blocks)).rows == h.rows + Expected(blocks, Count(h))
    decreases |blocks|
  {
    if blocks == [] {
      assert h.rows + Expected(blocks, Count(h)) == h.rows;
    } else {
      ReceiveBlock(h, blocks[0]);
      ReceiveConcat(h, PacketsOf(blocks[0]), Packets(blocks[1..]));
      var g := ReceiveAll(h, PacketsOf(blocks[0]));
      ReceiveBlocks(g, blocks[1..]);
      Associate(h.rows, BlockRows(blocks[0], Count(h)), Expected(blocks[1..], Count(g)));
    }
  }

  /** The stored batch numbers separate the batches exactly, whatever state the previous run
      left behind, even one that stopped inside a batch. */
  lemma RunRows(h: Handler, blocks: seq<Block>)
    ensures ReceiveAll(h, [GradingBegin] + Packets(blocks)).rows == Expected(blocks, 0)
  {
    var g := Receive(h, GradingBegin);
    assert ([GradingBegin] + Packets(blocks))[1..] == Packets(blocks);
    ReceiveBlocks(g, blocks);
  }

  /** All the cases of a run, in order. */
  function AllCases(blocks: seq<Block>): seq<Case> {
    if blocks == [] then [] else CasesOf(blocks[0]) + AllCases(blocks[1..])
  }

  /** The row says of the case what the packet said of it. */
  predicate Stores(r: Row, c: Case) {
    && r.position == c.position && r.status == StatusOf(c.status)
    && r.time == c.time && r.memory == c.memory && r.points == c.points && r.total == c.total
  }

  ghost predicate StoresAll(rows: seq<Row>, cs: seq<Case>) {
    |rows| == |cs| && forall i :: 0 <= i < |cs| ==> Stores(rows[i], cs[i])
  }

  lemma {:induction false} ExpectedStores(blocks: seq<Block>, n: nat)
    ensures StoresAll(Expected(blocks, n), AllCases(blocks))
  {
    if blocks != [] { ExpectedStores(blocks[1..], Numbered(blocks[0], n)); }
  }

  /** One row for each case of the run, in the order of the packets, and nothing of earlier runs. */
  lemma RunStores(h: Handler, blocks: seq<Block>)
    ensures StoresAll(ReceiveAll(h, [GradingBegin] + Packets(blocks)).rows, AllCases(blocks))
  {
    RunRows(h, blocks);
    ExpectedStores(blocks, 0);
  }

  // ---------- aggregation ----------

  /** The accumulators of the loop over the rows; a batch keeps (points, total). */
  datatype Acc = Acc(time: real, memory: real, points: real, total: real, status: nat, batches: map<nat, (real, real)>)

  const ZERO: Acc := Acc(0.0, 0.0, 0.0, 0.0, 0, map[])

  /** A batch is worth its least points and its greatest total. */
  function Put(m: map<nat, (real, real)>, b: nat, points: real, total: real): map<nat, (real, real)> {
    if b in m then m[b := (RealMin(m[b].0, points), RealMax(m[b].1, total))] else m[b := (points, total)]
  }

  predicate Unbatched(r: Row) {
    r.batch.None? || r.batch.value == 0
  }

  function Worse(status: nat, s: Status): nat {
    if Severity(s) > status then Severity(s) else status
  }

  function Add(a: Acc, r: Row): Acc {
    var time, memory, status := a.time + r.time, RealMax(a.memory, r.memory), Worse(a.status, r.status);
    if Unbatched(r) then Acc(time, memory, a.points + r.points, a.total + r.total, status, a.batches)
    else Acc(time, memory, a.points, a.total, status, Put(a.batches, r.batch.value, r.points, r.total))
  }

  function AddAll(a: Acc, rows: seq<Row>): Acc
    decreases |rows|
  {
    if rows == [] then a else AddAll(Add(a, rows[0]), rows[1..])
  }

  /** Points and totals over all batches. */
  ghost function SumBatches(m: map<nat, (real, real)>): (real, real) {
    if m == map[] then (0.0, 0.0)
    else
      var k :| k in m;
      var (p, t) := SumBatches(m - {k});
      (p + m[k].0, t + m[k].1)
  }

  /** The order in which the batches are added does not matter. */
  lemma {:induction false} SumBatchesStep(m: map<nat, (real, real)>, k: nat)
    requires k in m
    ensures SumBatches(m) == (SumBatches(m - {k}).0 + m[k].0, SumBatches(m - {k}).1 + m[k].1)
    decreases |m|
  {
    var j :| j in m && SumBatches(m) == (SumBatches(m - {j}).0 + m[j].0, SumBatches(m - {j}).1 + m[j].1);
    if j != k {
      SumBatchesStep(m - {j}, k);
      SumBatchesStep(m - {k}, j);
      assert m - {j} - {k} == m - {k} - {j};
    }
  }

  datatype Outcome = Outcome(time: real, memory: real, points: real, total: real, result: Status)

  ghost function Close(a: Acc): Outcome
    requires a.status < |STATUS_CODES|
  {
    var (p, t) := SumBatches(a.batches);
    Outcome(a.time, a.memory, a.points + p, a.total + t, STATUS_CODES[a.status])
  }

  /** The two loops at the end of grading, before rounding; the rows may come in any order and
      so may the batches. */
  method Aggregate(rows: seq<Row>) returns (o: Outcome)
    ensures AddAll(ZERO, rows).status < |STATUS_CODES| && o == Close(AddAll(ZERO, rows))
  {
    var a := ZERO;
    var i := 0;
    while i < |rows|
      invariant 0 <= i <= |rows| && a.status < |STATUS_CODES|
      invariant AddAll(a, rows[i..]) == AddAll(ZERO, rows)
    {
      a := Add(a, rows[i]);
      i := i + 1;
    }
    var points, total := AddBatches(a);
    o := Outcome(a.time, a.memory, points, total, STATUS_CODES[a.status]);
  }

  /** The second loop: the batches in any order. */
  method AddBatches(a: Acc) returns (points: real, total: real)
    ensures points == a.points + SumBatches(a.batches).0 && total == a.total + SumBatches(a.batches).1
  {
    var rest := a.batches;
    points, total := a.points, a.total;
    while rest != map[]
      invariant points + SumBatches(rest).0 == a.points + SumBatches(a.batches).0
      invariant total + SumBatches(rest).1 == a.total + SumBatches(a.batches).1
      decreases |rest|
    {
      var k :| k in rest;
      SumBatchesStep(rest, k);
      points, total := points + rest[k].0, total + rest[k].1;
      rest := rest - {k};
    }
  }

  lemma PutCommutes(m: map<nat, (real, real)>, b: nat, p: real, t: real, c: nat, q: real, u: real)
    ensures Put(Put(m, b, p, t), c, q, u) == Put(Put(m, c, q, u), b, p, t)
  {
  }

  /** Swapping two neighbouring rows changes nothing. */
  lemma AddCommutes(a: Acc, r: Row, s: Row)
    ensures Add(Add(a, r), s) == Add(Add(a, s), r)
  {
    if !Unbatched(r) && !Unbatched(s) {
      PutCommutes(a.batches, r.batch.value, r.points, r.total, s.batch.value, s.points, s.total);
    }
  }

  lemma {:induction false} AddMoved(a: Acc, rows: seq<Row>, t: nat)
    requires t < |rows|
    ensures AddAll(a, rows) == AddAll(Add(a, rows[t]), rows[..t] + rows[t + 1..])
    decreases t
  {
    if t == 0 {
      assert rows[..0] + rows[1..] == rows[1..];
    } else {
      var rest := rows[1..];
      AddMoved(Add(a, rows[0]), rest, t - 1);
      AddCommutes(a, rows[0], rows[t]);
      assert (rows[..t] + rows[t + 1..])[1..] == rest[..t - 1] + rest[t..];
    }
  }

  lemma TakeOut(rows: seq<Row>, rows': seq<Row>, t: nat)
    requires rows != [] && t < |rows'| && rows'[t] == rows[0] && multiset(rows) == multiset(rows')
    ensures multiset(rows[1..]) == multiset(rows'[..t] + rows'[t + 1..])
  {
    assert rows == [rows[0]] + rows[1..];
    assert rows' == rows'[..t] + [rows'[t]] + rows'[t + 1..];
    assert multiset(rows) == multiset{rows[0]} + multiset(rows[1..]);
    assert multiset(rows') == multiset{rows[0]} + multiset(rows'[..t] + rows'[t + 1..]);
    forall r ensures multiset(rows[1..])[r] == multiset(rows'[..t] + rows'[t + 1..])[r] {
      assert multiset(rows)[r] == multiset(rows')[r];
    }
  }

  /** The result does not depend on the order in which the rows are read. */
  lemma {:induction false} OrderIndependent(a: Acc, rows: seq<Row>, rows': seq<Row>)
    requires multiset(rows) == multiset(rows')
    ensures AddAll(a, rows) == AddAll(a, rows')
    decreases |rows|
  {
    if rows == [] {
      assert |multiset(rows')| == |rows'|;
    } else {
      assert rows[0] in multiset(rows) && rows[0] in multiset(rows');
      var t :| 0 <= t < |rows'| && rows'[t] == rows[0];
      TakeOut(rows, rows', t);
      AddMoved(a, rows', t);
      OrderIndependent(Add(a, rows[0]), rows[1..], rows'[..t] + rows'[t + 1..]);
    }
  }
}
