/**
  At most one live flow per record and field, and exactly the newest report's once it succeeded,
  in runs where a report is queued only when the dispatcher is through with the earlier ones of its
  field, where no crash falls between the creation of a flow and the save that records it, and
  where the pipeline queues for a field only while its time is unset and its reports succeeded.
 */
module SingleFlow {
  import opened Wrappers
  import opened Domain
  import opened Outbox
  import opened OutboxInvariant
  import opened OutboxSafety
  import opened FlowStreams
  import opened SingleFlowSteps

  lemma {:induction false} ReachableSingle(states: seq<World>, steps: seq<Step>, i: nat, stream: Stream)
    requires IsRunInTurn(states, steps, stream) && i < |states| && PipelineReportsFirst(states, steps, i, stream)
    ensures StreamOk(states[i], stream)
  {
    if i > 0 {
      ReachableSingle(states, steps, i - 1, stream);
      assert ReportsFirstAt(states, steps, i - 1, stream);
      assert InTurnAt(states, steps, i - 1, stream);
      ReachableInv(states, steps, i - 1);
      StepKeepsSingle(states[i - 1], steps[i - 1], states[i], stream);
    }
  }

  // ----- the results -----

  /** The remote service never holds two flows of one stream. */
  lemma AtMostOneFlow(states: seq<World>, steps: seq<Step>, i: nat, stream: Stream)
    requires IsRunInTurn(states, steps, stream) && i < |states| && PipelineReportsFirst(states, steps, i, stream)
    ensures !TwoFlows(states[i].remote, stream)
  {
    ReachableSingle(states, steps, i, stream);
    if TwoFlows(states[i].remote, stream) {
      var a, b :| a != b && LiveFor(states[i].remote, stream, a) && LiveFor(states[i].remote, stream, b);
      StreamOkMeansOne(states[i], stream, a, b);
      assert false;
    }
  }

  /** What the remote service holds for the stream is what its newest report created, and nothing else. */
  ghost predicate HoldsExactly(s: World, stream: Stream, n: nat)
    requires n < |s.store.reports|
  {
    forall flow: FlowId :: LiveFor(s.remote, stream, flow) <==> s.store.reports[n].external == Some(flow)
  }

  /** Once the newest report of a stream succeeded, the remote service holds for it exactly what that report
      created: its own flow when it carries a time, and nothing when it is a clear. */
  lemma RemoteHoldsExactlyNewest(states: seq<World>, steps: seq<Step>, i: nat, stream: Stream, n: nat)
    requires IsRunInTurn(states, steps, stream) && i < |states| && PipelineReportsFirst(states, steps, i, stream)
    requires IsNewest(states[i].store.reports, n, stream.recordId, stream.rtype)
    requires states[i].store.reports[n].status == Done
    ensures HoldsExactly(states[i], stream, n)
    ensures states[i].store.reports[n].body == Clear ==> states[i].store.reports[n].external.None?
  {
    var s := states[i];
    var rows := s.store.reports;
    ReachableSingle(states, steps, i, stream);
    ReachableInv(states, steps, i);
    assert RowOk(s.store.records, rows[n], s.limit);
    assert NewestDone(rows, n, stream) && AllSettled(rows, s.work, s.limit, stream);
    SettledCarriesNothing(rows, s.work, s.limit, stream);
    forall flow: FlowId | true ensures LiveFor(s.remote, stream, flow) <==> rows[n].external == Some(flow) {
      if rows[n].external == Some(flow) {
        NewestFlowIsLive(states, steps, i, stream.recordId, stream.rtype, n);
      }
      if LiveFor(s.remote, stream, flow) {
        assert FlowExplained(rows, s.work, s.limit, stream, flow);
        var m: nat :| NewestDone(rows, m, stream) && rows[m].external == Some(flow);
        NewestIsUnique(rows, stream, m, n);
      }
    }
  }

  lemma PipelineNeverReportsClockOut(states: seq<World>, steps: seq<Step>, n: nat, id: nat)
    requires IsRun(states, steps) && n <= |steps|
    ensures PipelineReportsFirst(states, steps, n, Stream(id, ClockOut))
  {
    forall j | 0 <= j < n ensures ReportsFirstAt(states, steps, j, Stream(id, ClockOut)) {
      StepAt(states, steps, j);
      var s, step := states[j], steps[j];
      if step.Message? && step.event.Some? && step.event.value.mac in step.devices {
        if Queues(s, states[j + 1], Stream(id, ClockOut)) {
          OnlyClockInIsQueued(s, step.devices[step.event.value.mac], step.event.value, Stream(id, ClockOut));
        }
      }
    }
  }

  /** The remote service never holds two clock-out flows of one record. */
  lemma AtMostOneClockOutFlow(states: seq<World>, steps: seq<Step>, i: nat, id: nat)
    requires IsRunInTurn(states, steps, Stream(id, ClockOut)) && i < |states|
    ensures !TwoFlows(states[i].remote, Stream(id, ClockOut))
  {
    PipelineNeverReportsClockOut(states, steps, i, id);
    AtMostOneFlow(states, steps, i, Stream(id, ClockOut));
  }

  /** Once the newest clock-out report of a record succeeded, the record's live flow is exactly its own, if any. */
  lemma ClockOutIsExact(states: seq<World>, steps: seq<Step>, i: nat, id: nat, n: nat)
    requires IsRunInTurn(states, steps, Stream(id, ClockOut)) && i < |states|
    requires IsNewest(states[i].store.reports, n, id, ClockOut) && states[i].store.reports[n].status == Done
    ensures HoldsExactly(states[i], Stream(id, ClockOut), n)
    ensures states[i].store.reports[n].body == Clear ==> states[i].store.reports[n].external.None?
  {
    PipelineNeverReportsClockOut(states, steps, i, id);
    RemoteHoldsExactlyNewest(states, steps, i, Stream(id, ClockOut), n);
  }
}
