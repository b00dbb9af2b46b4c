/** The tracking worker of src/app/core/worker/functions.py: the mocked status progression and the
    job step that advances one shipment and re-enqueues itself until a terminal status is reached. */
module WorkerFunctions {
  import opened Wrappers
  import opened WarehouseSchemas
  import opened ShipmentSchemas
  import opened Store

  /** The statuses after which the worker neither writes nor reschedules. */
  const TerminalStates: set<ShipmentStatus> := {Delivered, Cancelled, Failed}

  predicate IsTerminal(s: ShipmentStatus)
  {
    s in TerminalStates
  }

  /** Seconds between one tracking step and the follow-up it schedules. */
  const FollowUpDelay: int := 300

  /** The mocked carrier's progression table: each status to the one it reports next. */
  const StatusProgression: map<ShipmentStatus, ShipmentStatus> :=
    map[Pending := Processing, Processing := Shipped, Shipped := InTransit, InTransit := Delivered,
        Delivered := Delivered, Cancelled := Cancelled, Failed := Failed]

  /** The forward edges of the shipping lifecycle, pending -> processing -> shipped -> in_transit -> delivered,
      written independently of the table. */
  const AdvancingEdges: set<(ShipmentStatus, ShipmentStatus)> :=
    {(Pending, Processing), (Processing, Shipped), (Shipped, InTransit), (InTransit, Delivered)}

  /** `_get_mock_tracking_status`: the status the mocked carrier reports next. */
  function MockTrackingStatus(current: Option<ShipmentStatus>, trackingNumber: Option<string>): (r: ShipmentStatus)
    ensures !HasTracking(trackingNumber) ==> r == Pending
    ensures HasTracking(trackingNumber) && current.None? ==> r == Pending
    ensures HasTracking(trackingNumber) && current.Some? ==>
              && (r == current.value <==> IsTerminal(current.value))
              && (r != current.value <==> (current.value, r) in AdvancingEdges)
  {
    if !HasTracking(trackingNumber) then Pending
    else if current.None? then Pending
    else if current.value in StatusProgression then StatusProgression[current.value]
    else
      ShipmentStatusMembers();
      ProgressionCoversEveryStatus();
      assert false;
      Pending
  }

  /** The table lists every status, so the lookup's `pending` default is never taken. */
  lemma ProgressionCoversEveryStatus()
    ensures StatusProgression.Keys == AllShipmentStatuses
  {
  }

  /** The progression has no edges but the advancing ones: for a tracked shipment, the status
      moves from a to b != a exactly when (a, b) is one of the four lifecycle edges. */
  lemma AdvancesAreExactlyTheLifecycleEdges(a: ShipmentStatus, b: ShipmentStatus, trackingNumber: Option<string>)
    requires HasTracking(trackingNumber)
    ensures (a, b) in AdvancingEdges <==> a != b && MockTrackingStatus(Some(a), trackingNumber) == b
  {
  }

  /** How many more status writes the worker makes for a tracked shipment before it reaches a
      terminal status: a missing status first becomes pending, then one lifecycle edge per step. */
  function StepsToTerminal(s: Option<ShipmentStatus>): (n: nat)
    ensures n == 0 <==> s.Some? && IsTerminal(s.value)
    ensures n <= 5
  {
    match s
    case None => 5
    case Some(Pending) => 4
    case Some(Processing) => 3
    case Some(Shipped) => 2
    case Some(InTransit) => 1
    case Some(_) => 0
  }

  /** Every advance brings a tracked shipment one step closer to a terminal status. */
  lemma MockStatusApproachesTerminal(s: Option<ShipmentStatus>, trackingNumber: Option<string>)
    requires HasTracking(trackingNumber) && StepsToTerminal(s) > 0
    ensures StepsToTerminal(Some(MockTrackingStatus(s, trackingNumber))) == StepsToTerminal(s) - 1
  {
  }

  /** Exceptions raised by the collaborators during one step, with `str(e)` as message:
      by `crud_shipments.get`, by `crud_shipments.update` and by `enqueue_job`. */
  datatype Faults = Faults(load: Option<string>, write: Option<string>, enqueue: Option<string>)

  const NoFaults: Faults := Faults(None, None, None)

  /** The job a step schedules for its shipment's next step. */
  function FollowUpJob(shipmentId: int): Job
  {
    Job(TrackingJobName, shipmentId, Some(FollowUpDelay))
  }

  /** The `ShipmentUpdateInternal` the step writes: the new status and the time, nothing else. */
  function StatusWrite(status: ShipmentStatus, now: Timestamp): (u: ShipmentUpdateInternal)
  {
    StampOnly(now).(status := Some(status))
  }

  /** Under the store's update rule, the step's write changes the row's status and `updated_at`
      and nothing else: the id, warehouse, addresses, carrier, service code and tracking number
      stay as stored. */
  lemma StatusWriteTouchesOnlyStatus(row: Shipment, status: ShipmentStatus, now: Timestamp)
    ensures ApplyShipmentUpdate(row, StatusWrite(status, now)) == row.(status := Some(status), updatedAt := Some(now))
  {
  }

  /** A report of an exception caught at the step boundary. */
  function ErrorReport(shipmentId: int, message: string): TrackingUpdateStatus
  {
    Report(ErrorTag, shipmentId).(error := Some(message))
  }

  /** The result of one step and the shipment table and job queue it leaves. */
  datatype StepOutcome = StepOutcome(result: TrackingUpdateStatus, shipments: map<int, Shipment>, jobs: seq<Job>)

  /** The stored shipment has a tracking number and a status the worker still advances. */
  predicate Advanceable(shipments: map<int, Shipment>, id: int)
  {
    && id in shipments
    && HasTracking(shipments[id].trackingNumber)
    && !(shipments[id].status.Some? && IsTerminal(shipments[id].status.value))
  }

  /** The status an advanceable shipment is moved to. */
  function NextStatus(shipments: map<int, Shipment>, id: int): ShipmentStatus
    requires id in shipments
  {
    MockTrackingStatus(shipments[id].status, shipments[id].trackingNumber)
  }

  /** The step tries to enqueue a follow-up: the shipment advances to a non-terminal status and the pool exists. */
  predicate WantsFollowUp(shipments: map<int, Shipment>, pool: bool, id: int)
  {
    Advanceable(shipments, id) && !IsTerminal(NextStatus(shipments, id)) && pool
  }

  /** `update_shipment_tracking_status` on values: one step of the tracking workflow.
      No exception raised inside the step's `try` escapes it: every outcome is a report. */
  function TrackingStep(shipments: map<int, Shipment>, jobs: seq<Job>, pool: bool, id: int,
                        now: Timestamp, faults: Faults): (o: StepOutcome)
    ensures o.result.shipmentId == id
    // which report is produced
    ensures o.result.status == NotFoundTag <==> faults.load.None? && id !in shipments
    ensures o.result.status == NoTrackingTag <==>
              faults.load.None? && id in shipments && !HasTracking(shipments[id].trackingNumber)
    ensures o.result.status == TerminalTag <==>
              && faults.load.None? && id in shipments && HasTracking(shipments[id].trackingNumber)
              && shipments[id].status.Some? && IsTerminal(shipments[id].status.value)
    ensures o.result.status == UpdatedTag <==>
              && faults.load.None? && Advanceable(shipments, id) && faults.write.None?
              && (WantsFollowUp(shipments, pool, id) ==> faults.enqueue.None?)
    // at most one write, to this shipment, of its status and updated_at only
    ensures o.shipments == shipments
            || (Advanceable(shipments, id)
                && o.shipments == shipments[id := shipments[id].(status := Some(NextStatus(shipments, id)),
                                                                  updatedAt := Some(now))])
    // at most one enqueue, of this shipment's follow-up
    ensures o.jobs == jobs || o.jobs == jobs + [FollowUpJob(id)]
  {
    if faults.load.Some? then
      StepOutcome(ErrorReport(id, faults.load.value), shipments, jobs)
    else if id !in shipments then
      StepOutcome(Report(NotFoundTag, id), shipments, jobs)
    else
      var row := shipments[id];
      if !HasTracking(row.trackingNumber) then
        StepOutcome(Report(NoTrackingTag, id), shipments, jobs)
      else if row.status.Some? && IsTerminal(row.status.value) then
        StepOutcome(Report(TerminalTag, id).(currentStatus := Some(row.status.value.Value())), shipments, jobs)
      else
        var newStatus := MockTrackingStatus(row.status, row.trackingNumber);
        if faults.write.Some? then
          StepOutcome(ErrorReport(id, faults.write.value), shipments, jobs)
        else
          var written := shipments[id := ApplyShipmentUpdate(row, StatusWrite(newStatus, now))];
          var schedules := !IsTerminal(newStatus) && pool;
          if schedules && faults.enqueue.Some? then
            StepOutcome(ErrorReport(id, faults.enqueue.value), written, jobs)
          else
            var report := Report(UpdatedTag, id).(
              oldStatus := if row.status.Some? then Some(row.status.value.Value()) else None,
              newStatus := Some(newStatus.Value()));
            StepOutcome(report, written, if schedules then jobs + [FollowUpJob(id)] else jobs)
  }

  /** An unknown id reports NOT_FOUND with that id and changes nothing. */
  lemma StepOnUnknownShipment(shipments: map<int, Shipment>, jobs: seq<Job>, pool: bool, id: int, now: Timestamp)
    requires id !in shipments
    ensures TrackingStep(shipments, jobs, pool, id, now, NoFaults) == StepOutcome(Report(NotFoundTag, id), shipments, jobs)
  {
  }

  /** A shipment without a tracking number, None or "", reports NO_TRACKING and changes nothing. */
  lemma StepWithoutTracking(shipments: map<int, Shipment>, jobs: seq<Job>, pool: bool, id: int, now: Timestamp)
    requires id in shipments && !HasTracking(shipments[id].trackingNumber)
    ensures TrackingStep(shipments, jobs, pool, id, now, NoFaults) == StepOutcome(Report(NoTrackingTag, id), shipments, jobs)
  {
  }

  /** A tracked shipment in a terminal status reports TERMINAL echoing that status, with no write and no enqueue. */
  lemma StepOnTerminalShipment(shipments: map<int, Shipment>, jobs: seq<Job>, pool: bool, id: int, now: Timestamp, faults: Faults)
    requires faults.load.None?
    requires id in shipments && HasTracking(shipments[id].trackingNumber)
    requires shipments[id].status.Some? && IsTerminal(shipments[id].status.value)
    ensures var o := TrackingStep(shipments, jobs, pool, id, now, faults);
            && o.result.status == TerminalTag
            && ParseShipmentStatus(o.result.currentStatus.value) == shipments[id].status
            && o.result.oldStatus == None && o.result.newStatus == None && o.result.error == None
            && o.shipments == shipments && o.jobs == jobs
  {
  }

  /** A successful advance stores the next status and reports the prior status (None when there
      was none) and the new one; a missing status is reported as advanced to pending. */
  lemma StepAdvances(shipments: map<int, Shipment>, jobs: seq<Job>, pool: bool, id: int, now: Timestamp)
    requires Advanceable(shipments, id)
    ensures var o := TrackingStep(shipments, jobs, pool, id, now, NoFaults);
            && o.result.status == UpdatedTag
            && o.shipments[id].status == Some(NextStatus(shipments, id))
            && o.shipments[id].updatedAt == Some(now)
            && (shipments[id].status.None? ==> o.result.oldStatus == None && o.result.newStatus == Some("pending"))
            && (shipments[id].status.Some? ==> ParseShipmentStatus(o.result.oldStatus.value) == shipments[id].status)
            && ParseShipmentStatus(o.result.newStatus.value) == Some(NextStatus(shipments, id))
            && o.result.currentStatus == None && o.result.error == None
  {
  }

  /** Exactly one follow-up job, for the same shipment and delayed 300 s, is enqueued if and only
      if the step reports UPDATED with a non-terminal new status and the pool exists. */
  lemma FollowUpIffNonTerminalAdvance(shipments: map<int, Shipment>, jobs: seq<Job>, pool: bool, id: int,
                                      now: Timestamp, faults: Faults)
    ensures var o := TrackingStep(shipments, jobs, pool, id, now, faults);
            && (o.jobs == jobs + [FollowUpJob(id)] <==>
                  o.result.status == UpdatedTag && pool && !IsTerminal(o.shipments[id].status.value))
            && (o.jobs != jobs ==> o.jobs == jobs + [FollowUpJob(id)])
  {
  }

  /** Every exception becomes an ERROR report carrying its message. A failed load or write leaves
      the store and the queue as they were; a failed enqueue leaves the status written. */
  lemma StepErrors(shipments: map<int, Shipment>, jobs: seq<Job>, pool: bool, id: int, now: Timestamp, faults: Faults)
    ensures var o := TrackingStep(shipments, jobs, pool, id, now, faults);
            && (o.result.status == ErrorTag ==>
                  && o.result.error.Some? && o.result.error in {faults.load, faults.write, faults.enqueue}
                  && o.jobs == jobs)
            && (faults.load.Some? ==> o == StepOutcome(ErrorReport(id, faults.load.value), shipments, jobs))
            && (faults.load.None? && Advanceable(shipments, id) && faults.write.Some? ==>
                  o == StepOutcome(ErrorReport(id, faults.write.value), shipments, jobs))
            && (faults.load.None? && faults.write.None? && WantsFollowUp(shipments, pool, id) && faults.enqueue.Some? ==>
                  && o.result == ErrorReport(id, faults.enqueue.value)
                  && o.shipments[id].status == Some(NextStatus(shipments, id)) && o.jobs == jobs)
  {
  }

  /** Each optional field of a report is filled exactly for the kind of report it belongs to:
      `current_status` for TERMINAL, `new_status` for UPDATED, `old_status` for UPDATED when the
      shipment had a status, and `error` for ERROR. */
  lemma ReportFieldsMatchTag(shipments: map<int, Shipment>, jobs: seq<Job>, pool: bool, id: int,
                             now: Timestamp, faults: Faults)
    ensures var r := TrackingStep(shipments, jobs, pool, id, now, faults).result;
            && (r.currentStatus.Some? <==> r.status == TerminalTag)
            && (r.newStatus.Some? <==> r.status == UpdatedTag)
            && (r.oldStatus.Some? <==> r.status == UpdatedTag && shipments[id].status.Some?)
            && (r.error.Some? <==> r.status == ErrorTag)
  {
  }

  /** `update_shipment_tracking_status(ctx, shipment_id)`: loads the shipment, reports, writes at
      most one status update and enqueues at most one follow-up job. */
  method UpdateShipmentTrackingStatus(db: Backend, shipmentId: int, now: Timestamp, faults: Faults)
    returns (r: TrackingUpdateStatus)
    requires db.Valid()
    modifies db`shipments, db`jobs
    ensures db.Valid()
    ensures var o := TrackingStep(old(db.shipments), old(db.jobs), db.poolAvailable, shipmentId, now, faults);
            r == o.result && db.shipments == o.shipments && db.jobs == o.jobs
  {
    if faults.load.Some? {
      return ErrorReport(shipmentId, faults.load.value);
    }
    var shipment := db.GetShipment(shipmentId);
    if shipment.None? {
      return Report(NotFoundTag, shipmentId);
    }
    var currentStatus := shipment.value.status;
    var trackingNumber := shipment.value.trackingNumber;
    if !HasTracking(trackingNumber) {
      return Report(NoTrackingTag, shipmentId);
    }
    if currentStatus.Some? && currentStatus.value in TerminalStates {
      return Report(TerminalTag, shipmentId).(currentStatus := Some(currentStatus.value.Value()));
    }
    var newStatus := MockTrackingStatus(currentStatus, trackingNumber);
    if faults.write.Some? {
      return ErrorReport(shipmentId, faults.write.value);
    }
    db.UpdateShipmentRow(shipmentId, StatusWrite(newStatus, now));
    if newStatus !in TerminalStates && db.poolAvailable {
      if faults.enqueue.Some? {
        return ErrorReport(shipmentId, faults.enqueue.value);
      }
      db.EnqueueJob(TrackingJobName, shipmentId, Some(FollowUpDelay));
    }
    r := Report(UpdatedTag, shipmentId).(
      oldStatus := if currentStatus.Some? then Some(currentStatus.value.Value()) else None,
      newStatus := Some(newStatus.Value()));
  }

  /** The table and queue after a shipment's job chain runs n steps, each step running the
      follow-up the previous one enqueued, with the pool present and no exception. */
  datatype ChainState = ChainState(shipments: map<int, Shipment>, jobs: seq<Job>)

  function RunSteps(shipments: map<int, Shipment>, jobs: seq<Job>, id: int, now: Timestamp, n: nat): ChainState
    decreases n
  {
    if n == 0 then ChainState(shipments, jobs)
    else
      var o := TrackingStep(shipments, jobs, true, id, now, NoFaults);
      RunSteps(o.shipments, o.jobs, id, now, n - 1)
  }

  /** m follow-up jobs for one shipment. */
  function FollowUps(id: int, m: nat): seq<Job>
  {
    if m == 0 then [] else [FollowUpJob(id)] + FollowUps(id, m - 1)
  }

  /** The table after an undisturbed step on an advanceable shipment. */
  function Advanced(shipments: map<int, Shipment>, id: int, now: Timestamp): map<int, Shipment>
    requires id in shipments
  {
    shipments[id := shipments[id].(status := Some(NextStatus(shipments, id)), updatedAt := Some(now))]
  }

  /** The queue after an undisturbed step on an advanceable shipment. */
  function AdvancedJobs(shipments: map<int, Shipment>, jobs: seq<Job>, id: int): seq<Job>
    requires id in shipments
  {
    if IsTerminal(NextStatus(shipments, id)) then jobs else jobs + [FollowUpJob(id)]
  }

  /** One step of an undisturbed chain on a tracked, non-terminal shipment advances its status,
      keeps its tracking number and enqueues a follow-up exactly when the new status is non-terminal. */
  lemma ChainStep(shipments: map<int, Shipment>, jobs: seq<Job>, id: int, now: Timestamp, n: nat)
    requires Advanceable(shipments, id) && n > 0
    ensures RunSteps(shipments, jobs, id, now, n)
            == RunSteps(Advanced(shipments, id, now), AdvancedJobs(shipments, jobs, id), id, now, n - 1)
  {
  }

  /** Once the shipment is missing, untracked or terminal, any number of further steps, such as a
      duplicate or stale job, leaves the table and the queue as they are. */
  lemma {:induction false} StoppedChainStaysStopped(shipments: map<int, Shipment>, jobs: seq<Job>, id: int,
                                                    now: Timestamp, m: nat)
    requires !Advanceable(shipments, id)
    ensures RunSteps(shipments, jobs, id, now, m) == ChainState(shipments, jobs)
    decreases m
  {
    if m > 0 {
      StoppedChainStaysStopped(shipments, jobs, id, now, m - 1);
    }
  }

  /** The self-rescheduling chain ends: started on a tracked shipment, n = StepsToTerminal steps
      bring it to a terminal status (delivered, unless it already was terminal), and no other
      shipment is touched. */
  lemma {:induction false} ChainEndsTerminal(shipments: map<int, Shipment>, jobs: seq<Job>, id: int, now: Timestamp, n: nat)
    requires id in shipments && HasTracking(shipments[id].trackingNumber)
    requires n == StepsToTerminal(shipments[id].status)
    ensures var c := RunSteps(shipments, jobs, id, now, n);
            && id in c.shipments && c.shipments[id].status.Some? && IsTerminal(c.shipments[id].status.value)
            && (n > 0 ==> c.shipments[id].status == Some(Delivered))
            && c.shipments.Keys == shipments.Keys
            && (forall k :: k in shipments && k != id ==> c.shipments[k] == shipments[k])
    decreases n
  {
    if n > 0 {
      ChainStep(shipments, jobs, id, now, n);
      MockStatusApproachesTerminal(shipments[id].status, shipments[id].trackingNumber);
      ChainEndsTerminal(Advanced(shipments, id, now), AdvancedJobs(shipments, jobs, id), id, now, n - 1);
    }
  }

  /** Along that chain every step but the last enqueues one follow-up for the shipment, and
      nothing else is enqueued. */
  lemma {:induction false} ChainEnqueuesFollowUps(shipments: map<int, Shipment>, jobs: seq<Job>, id: int, now: Timestamp, n: nat)
    requires id in shipments && HasTracking(shipments[id].trackingNumber)
    requires n == StepsToTerminal(shipments[id].status)
    ensures RunSteps(shipments, jobs, id, now, n).jobs == jobs + FollowUps(id, if n == 0 then 0 else n - 1)
    decreases n
  {
    if n > 0 {
      var next := Advanced(shipments, id, now);
      var nextJobs := AdvancedJobs(shipments, jobs, id);
      ChainStep(shipments, jobs, id, now, n);
      MockStatusApproachesTerminal(shipments[id].status, shipments[id].trackingNumber);
      ChainEnqueuesFollowUps(next, nextJobs, id, now, n - 1);
      if n > 1 {
        assert nextJobs == jobs + [FollowUpJob(id)];
        assert FollowUps(id, n - 1) == [FollowUpJob(id)] + FollowUps(id, n - 2);
      } else {
        assert nextJobs == jobs;
      }
    }
  }
}
