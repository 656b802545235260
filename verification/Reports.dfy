/** What a connection's task reports is what the worker's books need. */
module Reports {
  import opened Wire
  import opened Records
  import Meaning
  import Connection
  import Delivery
  import Driver

  /** The part of a task's progress that the worker absorbs. */
  function ReportOf(task: Connection.Task): Driver.Progress {
    Driver.Progress(task.read, task.wireQueued, task.recordsQueued, task.pendingRecord, task.terminalQueued,
                    task.counterOverflow)
  }

  /** Every task of a bound receiver, stopped or cancelled anywhere, reports progress the books can absorb. */
  lemma {:induction false} TasksReportSanely(setup: Meaning.Setup, events: seq<Connection.Event>)
    requires Delivery.Bound(setup)
    ensures ReportOf(Connection.Run(setup, events)).Sane()
  {
    hide Connection.Next, Delivery.Tells, Delivery.Shape;
    Delivery.RunInv(setup, events);
  }

  /** So absorbing any such task never fails its internal check, and undelivered bytes are read but not handed off. */
  lemma {:induction false} AbsorbingNeverPanics(setup: Meaning.Setup, events: seq<Connection.Event>,
                                                summary: Driver.RunSummary, live: nat)
    requires Delivery.Bound(setup) && summary.CanClose(live)
    ensures var task := Connection.Run(setup, events);
      var merged := Driver.MergeProgress(summary, ReportOf(task));
      && merged.Some?
      && (merged.value.1 ==>
            && merged.value.0.Balanced(live)
            && merged.value.0.ended == summary.ended + (if task.terminalQueued then 1 else 0)
            && merged.value.0.undeliveredRawBytes == summary.undeliveredRawBytes + (|task.observed| - task.wireQueued)
            && merged.value.0.rawBytesHandedOff == summary.rawBytesHandedOff + |RawBytes(task.sent)|
            && merged.value.0.recordsHandedOff == summary.recordsHandedOff + |task.sent|
            && merged.value.0.undeliveredRecords == summary.undeliveredRecords + (if task.pendingRecord then 1 else 0))
  {
    hide Connection.Next, Delivery.Tells, Delivery.Shape;
    Delivery.RunInv(setup, events);
    Driver.MergeKeepsBooks(summary, ReportOf(Connection.Run(setup, events)), live);
  }
}
