/**
 The outbound protocol over whole runs: what its history fields hold is what the steps of the run
 did, and each drainer's batch is published as that drainer's own loop does.
 */
module OutboundRuns {
  import opened Wrappers
  import opened Outbound

  ghost predicate IsRun(run: seq<Step>) {
    Exec(run).Some?
  }

  /** The state before step `k`; for `k == |run|` the state the run ends in. */
  function Before(run: seq<Step>, k: nat): State
    requires k <= |run|
  {
    match Exec(run[..k])
    case Some(s) => s
    case None => INIT
  }

  function Final(run: seq<Step>): State {
    Before(run, |run|)
  }

  lemma RunLast(run: seq<Step>)
    requires IsRun(run) && run != []
    ensures var front, last := run[..|run| - 1], run[|run| - 1];
            IsRun(front) && Can(Final(front), last) && Final(run) == Do(Final(front), last)
  {
    var front := run[..|run| - 1];
    assert run[..|run|] == run && front[..|front|] == front;
  }

  lemma SameBefore(run: seq<Step>, n: nat, k: nat)
    requires k <= n <= |run|
    ensures Before(run[..n], k) == Before(run, k)
  {
    assert run[..n][..k] == run[..k];
  }

  lemma {:induction false} RunPrefix(run: seq<Step>, k: nat)
    requires IsRun(run) && k <= |run|
    ensures IsRun(run[..k]) && Final(run[..k]) == Before(run, k)
    ensures k < |run| ==> Can(Before(run, k), run[k]) && Before(run, k + 1) == Do(Before(run, k), run[k])
  {
    if k == |run| {
      assert run[..k] == run;
    } else if k + 1 == |run| {
      RunLast(run);
      assert run[..k + 1] == run && run[..k][..k] == run[..k];
    } else {
      RunLast(run);
      RunPrefix(run[..|run| - 1], k);
      assert run[..|run| - 1][..k] == run[..k] && run[..|run| - 1][..k + 1] == run[..k + 1];
    }
  }

  lemma FinalInv(run: seq<Step>)
    requires IsRun(run)
    ensures Inv(Final(run)) && Reachable(Final(run))
  {
    assert run[..|run|] == run;
    assert Exec(run) == Some(Final(run));
    ReachableInv(Final(run));
  }

  // ── What the steps of a run did ─────────────────────────────────────────

  /** The packets the run made conversation `i` buffer. */
  function Buffered(run: seq<Step>, i: nat): seq<Packet> {
    if run == [] then []
    else
      var before, a := Buffered(run[..|run| - 1], i), run[|run| - 1];
      if a.Produce? && a.source == i then before + [a.packet] else before
  }

  /** The answers the relay gave to the publishes of batch `b`. */
  function Answers(run: seq<Step>, b: nat): seq<bool> {
    if run == [] then []
    else
      var before, a := Answers(run[..|run| - 1], b), run[|run| - 1];
      if a.Publish? && a.b == b then before + [a.ok] else before
  }

  /** The batches in the order they locked the transport. */
  function Locked(run: seq<Step>): seq<nat> {
    if run == [] then []
    else
      var before, a := Locked(run[..|run| - 1]), run[|run| - 1];
      if a.Lock? then before + [a.b] else before
  }

  /** The accepted packets, each by its batch and its place there. */
  function Accepted(run: seq<Step>): seq<Stamp> {
    if run == [] then []
    else
      var front, a := run[..|run| - 1], run[|run| - 1];
      if a.Publish? && a.ok then Accepted(front) + [Stamp(a.b, |Answers(front, a.b)|)] else Accepted(front)
  }

  lemma ProducedStep(s: State, a: Step, i: nat)
    requires Can(s, a) && i < |Do(s, a).produced| && |s.produced| == |s.buffers|
    ensures Do(s, a).produced[i]
            == (if i < |s.produced| then s.produced[i] else [])
               + if a.Produce? && a.source == i then [a.packet] else []
  {
  }

  lemma {:induction false} NothingBuffered(run: seq<Step>, i: nat)
    requires IsRun(run) && i >= |Final(run).produced|
    ensures Buffered(run, i) == []
  {
    if run != [] {
      RunLast(run);
      NothingBuffered(run[..|run| - 1], i);
    }
  }

  /** A conversation has produced exactly what the run made it buffer, in order. */
  lemma {:induction false} ProducedIsBuffered(run: seq<Step>, i: nat)
    requires IsRun(run) && i < |Final(run).produced|
    ensures Final(run).produced[i] == Buffered(run, i)
  {
    if run != [] {
      var front := run[..|run| - 1];
      RunLast(run);
      FinalInv(front);
      if i < |Final(front).produced| {
        ProducedIsBuffered(front, i);
      } else {
        NothingBuffered(front, i);
      }
      ProducedStep(Final(front), run[|run| - 1], i);
    }
  }

  /** What a step makes of a batch: only its own publishes and its lock touch it. */
  lemma BatchStep(s: State, a: Step, b: nat)
    requires Can(s, a) && b < |s.batches|
    ensures b < |Do(s, a).batches|
    ensures var x, y := s.batches[b], Do(s, a).batches[b];
            && y.source == x.source && y.kind == x.kind && y.items == x.items
            && y.results == x.results + if a.Publish? && a.b == b then [a.ok] else []
  {
  }

  lemma NewBatch(s: State, a: Step, b: nat)
    requires Can(s, a) && |s.batches| <= b < |Do(s, a).batches|
    ensures b == |s.batches| && Do(s, a).batches[b].results == [] && !a.Publish? && (a.Drain? || a.Announce?)
    ensures a.Drain? ==> Do(s, a).batches[b] == Batch(a.source, a.kind, s.buffers[a.source], Held, [])
    ensures a.Announce? ==> Do(s, a).batches[b].kind == Direct && Do(s, a).batches[b].items == [a.packet]
  {
  }

  lemma {:induction false} NoAnswers(run: seq<Step>, b: nat)
    requires IsRun(run) && b >= |Final(run).batches|
    ensures Answers(run, b) == []
  {
    if run != [] {
      RunLast(run);
      NoAnswers(run[..|run| - 1], b);
    }
  }

  /** A batch's results are the relay's answers to its publishes. */
  lemma {:induction false} ResultsAreAnswers(run: seq<Step>, b: nat)
    requires IsRun(run) && b < |Final(run).batches|
    ensures Final(run).batches[b].results == Answers(run, b)
  {
    if run != [] {
      var front, a := run[..|run| - 1], run[|run| - 1];
      RunLast(run);
      if b < |Final(front).batches| {
        ResultsAreAnswers(front, b);
        BatchStep(Final(front), a, b);
      } else {
        NoAnswers(front, b);
        NewBatch(Final(front), a, b);
      }
    }
  }

  lemma {:induction false} OrderIsLocked(run: seq<Step>)
    requires IsRun(run)
    ensures Final(run).order == Locked(run)
  {
    if run != [] {
      RunLast(run);
      OrderIsLocked(run[..|run| - 1]);
    }
  }

  /** The transport holds exactly the accepted publishes, in the order they were made. */
  lemma {:induction false} LogIsAccepted(run: seq<Step>)
    requires IsRun(run)
    ensures Final(run).log == Accepted(run)
  {
    if run != [] {
      var front, a := run[..|run| - 1], run[|run| - 1];
      RunLast(run);
      LogIsAccepted(front);
      if a.Publish? {
        ResultsAreAnswers(front, a.b);
      }
    }
  }

  // ── Each batch is its drainer's ─────────────────────────────────────────

  ghost predicate SameBatch(s: State, b: nat, source: nat, kind: Kind, items: seq<Packet>) {
    b < |s.batches| && s.batches[b].source == source && s.batches[b].kind == kind && s.batches[b].items == items
  }

  lemma {:induction false} BatchStays(run: seq<Step>, k: nat, b: nat, source: nat, kind: Kind, items: seq<Packet>)
    requires IsRun(run) && k <= |run| && SameBatch(Before(run, k), b, source, kind, items)
    ensures SameBatch(Final(run), b, source, kind, items)
  {
    if k < |run| {
      RunLast(run);
      SameBefore(run, |run| - 1, k);
      BatchStays(run[..|run| - 1], k, b, source, kind, items);
      BatchStep(Final(run[..|run| - 1]), run[|run| - 1], b);
    }
  }

  /** The batch that step `k` drains or announces. */
  function BatchBy(run: seq<Step>, k: nat): nat
    requires k < |run|
  {
    |Before(run, k).batches|
  }

  /** For good it is of the conversation drained, has the drainer's kind, and holds what was buffered. */
  lemma DrainedAs(run: seq<Step>, k: nat)
    requires IsRun(run) && k < |run| && run[k].Drain?
    ensures run[k].source < |Before(run, k).buffers| && BatchBy(run, k) < |Final(run).batches|
    ensures var batch := Final(run).batches[BatchBy(run, k)];
            && batch.source == run[k].source && batch.kind == run[k].kind
            && batch.items == Before(run, k).buffers[run[k].source]
  {
    RunPrefix(run, k);
    BatchStays(run, k + 1, BatchBy(run, k), run[k].source, run[k].kind, Before(run, k).buffers[run[k].source]);
  }

  lemma AnnouncedAs(run: seq<Step>, k: nat)
    requires IsRun(run) && k < |run| && run[k].Announce?
    ensures BatchBy(run, k) < |Final(run).batches|
    ensures var batch := Final(run).batches[BatchBy(run, k)]; batch.kind == Direct && batch.items == [run[k].packet]
    ensures |Answers(run, BatchBy(run, k))| <= 1
  {
    RunPrefix(run, k);
    BatchStays(run, k + 1, BatchBy(run, k), 0, Direct, [run[k].packet]);
    ResultsAreAnswers(run, BatchBy(run, k));
    BatchIsOk(run, BatchBy(run, k));
  }

  lemma BatchIsOk(run: seq<Step>, b: nat)
    requires IsRun(run) && b < |Final(run).batches|
    ensures BatchOk(Final(run).batches[b])
  {
    FinalInv(run);
  }

  /** Its task has had the transport and given it back. */
  predicate Over(run: seq<Step>, b: nat) {
    b in Locked(run) && Final(run).transport != Some(b)
  }

  lemma OverIsDone(run: seq<Step>, b: nat)
    requires IsRun(run) && b < |Final(run).batches|
    ensures Over(run, b) <==> Final(run).batches[b].stage.Done?
  {
    FinalInv(run);
    OrderIsLocked(run);
    if b in Final(run).order {
      var k :| 0 <= k < |Final(run).order| && Final(run).order[k] == b;
    }
  }

  /**
   A flush publishes what it drained up to the first failure: every answer but the last is a success,
   and it is over exactly when all were tried or the last one failed.
   */
  lemma FlushedAs(run: seq<Step>, k: nat)
    requires IsRun(run) && k < |run| && run[k].Drain? && run[k].kind.Flushing?
    ensures run[k].source < |Before(run, k).buffers|
    ensures var b, answers := BatchBy(run, k), Answers(run, BatchBy(run, k));
            var n := |Before(run, k).buffers[run[k].source]|;
            && |answers| <= n && (forall j :: 0 <= j < |answers| - 1 ==> answers[j])
            && (Over(run, b) <==> |answers| == n || (answers != [] && !answers[|answers| - 1]))
  {
    var b := BatchBy(run, k);
    DrainedAs(run, k);
    ResultsAreAnswers(run, b);
    OverIsDone(run, b);
    BatchIsOk(run, b);
  }

  /** The pump's tick tries every packet it drained, whatever the answers. */
  lemma TickedAs(run: seq<Step>, k: nat)
    requires IsRun(run) && k < |run| && run[k].Drain? && run[k].kind.Ticking?
    ensures run[k].source < |Before(run, k).buffers|
    ensures var b, answers := BatchBy(run, k), Answers(run, BatchBy(run, k));
            var n := |Before(run, k).buffers[run[k].source]|;
            |answers| <= n && (Over(run, b) <==> |answers| == n)
  {
    var b := BatchBy(run, k);
    DrainedAs(run, k);
    ResultsAreAnswers(run, b);
    OverIsDone(run, b);
    BatchIsOk(run, b);
  }

  lemma AnswersBefore(run: seq<Step>, b: nat)
    requires run != []
    ensures Answers(run, b)
            == Answers(run[..|run| - 1], b)
               + if run[|run| - 1].Publish? && run[|run| - 1].b == b then [run[|run| - 1].ok] else []
  {
  }

  lemma {:induction false} FailureIsAnswered(run: seq<Step>, j: nat, b: nat)
    requires j < |run| && run[j] == Publish(b, false)
    ensures false in Answers(run, b)
  {
    AnswersBefore(run, b);
    if j < |run| - 1 {
      FailureIsAnswered(run[..|run| - 1], j, b);
    }
  }

  /** So after a failure nothing more of a flush is published. */
  lemma NothingAfterAFailure(run: seq<Step>, k: nat, j: nat, l: nat)
    requires IsRun(run) && k < j < l < |run| && run[k].Drain? && run[k].kind.Flushing?
    requires run[j] == Publish(BatchBy(run, k), false)
    ensures !run[l].Publish? || run[l].b != BatchBy(run, k)
  {
    var b, upTo := BatchBy(run, k), run[..l];
    RunPrefix(run, l);
    SameBefore(run, l, k);
    FlushedAs(upTo, k);
    FailureIsAnswered(upTo, j, b);
    var x :| 0 <= x < |Answers(upTo, b)| && !Answers(upTo, b)[x];
    assert Over(upTo, b);
  }

  // ── Every batch gets its turn ───────────────────────────────────────────

  /** While a batch is not done, the transport's holder can publish or a waiting task can take it. */
  lemma NeverStuck(s: State, b: nat) returns (a: Step)
    requires Reachable(s) && b < |s.batches| && !s.batches[b].stage.Done?
    ensures Can(s, a) && (a.Lock? || a.Publish?)
  {
    ReachableInv(s);
    if s.transport.Some? {
      var holder := s.transport.value;
      assert BatchOk(s.batches[holder]);
      a := Publish(holder, true);
    } else {
      a := Lock(b);
    }
  }

  function BatchWork(b: Batch): nat
  {
    match b.stage
    case Done => 0
    case Held => |b.items| + 1
    case Sending => if |b.results| < |b.items| then |b.items| - |b.results| else 0
  }

  function Work(batches: seq<Batch>): nat {
    if batches == [] then 0 else Work(batches[..|batches| - 1]) + BatchWork(batches[|batches| - 1])
  }

  lemma {:induction false} WorkUpdate(batches: seq<Batch>, b: nat, x: Batch)
    requires b < |batches|
    ensures Work(batches[b := x]) == Work(batches) - BatchWork(batches[b]) + BatchWork(x)
  {
    var last := |batches| - 1;
    if b == last {
      assert batches[b := x][..last] == batches[..last];
    } else {
      assert batches[b := x][..last] == batches[..last][b := x];
      WorkUpdate(batches[..last], b, x);
    }
  }

  /** Each such step leaves strictly less to do for the batches drained so far. */
  lemma PublishingFinishes(s: State, a: Step)
    requires Reachable(s) && Can(s, a) && (a.Lock? || a.Publish?)
    ensures Work(Do(s, a).batches) < Work(s.batches)
  {
    ReachableInv(s);
    assert BatchOk(s.batches[a.b]);
    WorkUpdate(s.batches, a.b, Do(s, a).batches[a.b]);
  }
}
