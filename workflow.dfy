/**
 * The workflow engine of the repair shop: one first-in first-out queue per
 * stage, and the transitions that admit a device, evaluate it, repair it,
 * check its quality, deliver it, look it up and delete it. The interactive
 * prompts of the shop's console become parameters, the clock becomes a
 * `today` parameter, and every write to the history file becomes an
 * append to the ghost `history`.
 *
 * Four facts hold between operations (`Valid`): every device carries the
 * stage of the queue holding it, no device is held twice, no two devices
 * have identifiers equal ignoring case, and the under-evaluation queue
 * stays empty.
 */
module Engine {
  import opened Strings
  import opened Distinct
  import opened Devices
  import opened Queues
  import opened Identifiers

  /** How an operation ended. */
  datatype Outcome = Done | Cancelled | QueueEmpty | DuplicateIdentifier | NotFound

  const AdmittedNote := "Equipo ingresado al sistema"
  const EvaluatedPrefix := "Evaluación técnica realizada: "
  const SentToRepairNote := "Enviado a reparación"
  const NoRepairNote := "No requiere reparación. Listo para entrega"
  const ApprovedNote := "Aprobado en control de calidad. Listo para entrega"
  const RejectedNote := "Rechazado en control de calidad. Regresado a reparación"
  const DeliveredNote := "Equipo entregado al cliente"

  /** The activity written when a technician finishes a repair. */
  function RepairNote(technician: string, work: string): string
  {
    "Reparación completada por " + technician + ": " + work
  }

  /** Where an evaluated device goes, and what is logged when it gets there. */
  function EvaluationTarget(needsRepair: bool): DeviceState
  {
    if needsRepair then InRepair else ReadyDelivery
  }

  function EvaluationNote(needsRepair: bool): string
  {
    if needsRepair then SentToRepairNote else NoRepairNote
  }

  /** Where a checked device goes, and what is logged when it gets there. */
  function QualityTarget(approved: bool): DeviceState
  {
    if approved then ReadyDelivery else InRepair
  }

  function QualityNote(approved: bool): string
  {
    if approved then ApprovedNote else RejectedNote
  }

  /** Every device of `ds` is in stage `s`. */
  ghost predicate AllAt(ds: seq<Device>, s: DeviceState)
    reads ds`currentState
  {
    forall i :: 0 <= i < |ds| ==> ds[i].currentState == s
  }

  /**
   * The inner loop of `findDeviceByIdentifier`: walks one queue from its
   * head and answers the first device whose identifier equals `identifier`
   * ignoring case, or nothing when none does.
   */
  method ScanQueue(items: seq<Device>, identifier: string) returns (found: Option<Device>)
    ensures found.Some? ==> found.value in items && EqualsIgnoreCase(found.value.identifier, identifier)
    ensures found.Some? ==> exists i :: 0 <= i < |items| && found.value == items[i] && MatchCount(items[..i], identifier) == 0
    ensures found.None? <==> MatchCount(items, identifier) == 0
  {
    var i := 0;
    while i < |items|
      invariant 0 <= i <= |items|
      invariant MatchCount(items[..i], identifier) == 0
    {
      if EqualsIgnoreCase(items[i].identifier, identifier) {
        assert items == items[..i] + items[i..];
        MatchCountPositive(items, identifier, items[i]);
        return Some(items[i]);
      }
      assert items[..i + 1] == items[..i] + [items[i]];
      MatchCountConcat(items[..i], [items[i]], identifier);
      i := i + 1;
    }
    assert items[..i] == items;
    return None;
  }

  class Workflow {
    /** The queue of each stage; the map from stage to queue is never rebuilt. */
    const received: DeviceQueue
    const underEvaluation: DeviceQueue
    const inRepair: DeviceQueue
    const qualityCheck: DeviceQueue
    const readyDelivery: DeviceQueue
    /** The snapshots written to the history file, oldest first. */
    ghost var history: seq<HistoryEntry>

    /** `workflows.get(s)`. */
    function Queue(s: DeviceState): (q: DeviceQueue)
      ensures Wired() ==> q.workflowState == s
    {
      match s
      case Received => received
      case UnderEvaluation => underEvaluation
      case InRepair => inRepair
      case QualityCheck => qualityCheck
      case ReadyDelivery => readyDelivery
    }

    /** The devices waiting in stage `s`, head first. */
    function Stage(s: DeviceState): seq<Device>
      reads Queue(s)`items
    {
      Queue(s).items
    }

    /** Every live device, stage by stage in declaration order. */
    ghost function AllDevices(): seq<Device>
      reads received`items, underEvaluation`items, inRepair`items, qualityCheck`items, readyDelivery`items
    {
      received.items + underEvaluation.items + inRepair.items + qualityCheck.items + readyDelivery.items
    }

    ghost function Count(): nat
      reads received`items, underEvaluation`items, inRepair`items, qualityCheck`items, readyDelivery`items
    {
      |AllDevices()|
    }

    /** The head of stage `s`, as a frame: the one device a transition from `s` changes. */
    ghost function Front(s: DeviceState): set<Device>
      reads Queue(s)`items
    {
      if Stage(s) == [] then {} else {Stage(s)[0]}
    }

    /** Each queue is bound to its own stage, so the five queues are different objects. */
    predicate Wired()
    {
      && received.workflowState == Received
      && underEvaluation.workflowState == UnderEvaluation
      && inRepair.workflowState == InRepair
      && qualityCheck.workflowState == QualityCheck
      && readyDelivery.workflowState == ReadyDelivery
    }

    /** What each queue keeps: every device in it carries stage `s`, and none is there twice. */
    ghost predicate Holds(q: DeviceQueue, s: DeviceState)
      reads q`items, q.items`currentState
    {
      AllAt(q.items, s) && NoDup(q.items)
    }

    /** Every queue keeps its facts, and the under-evaluation queue is empty. */
    ghost predicate QueuesHold()
      reads received`items, underEvaluation`items, inRepair`items, qualityCheck`items, readyDelivery`items
      reads received.items`currentState, underEvaluation.items`currentState, inRepair.items`currentState
      reads qualityCheck.items`currentState, readyDelivery.items`currentState
    {
      && Wired()
      && Holds(received, Received)
      && Holds(underEvaluation, UnderEvaluation)
      && Holds(inRepair, InRepair)
      && Holds(qualityCheck, QualityCheck)
      && Holds(readyDelivery, ReadyDelivery)
      && underEvaluation.items == []
    }

    /**
     * The invariant every operation keeps: the queues keep their facts, and
     * no two live devices have identifiers equal ignoring case.
     */
    ghost predicate Valid()
      reads received`items, underEvaluation`items, inRepair`items, qualityCheck`items, readyDelivery`items
      reads received.items`currentState, underEvaluation.items`currentState, inRepair.items`currentState
      reads qualityCheck.items`currentState, readyDelivery.items`currentState
    {
      QueuesHold() && KeysInjective(AllDevices())
    }

    /** The default structure: one empty queue per stage, and nothing logged yet. */
    constructor ()
      ensures Valid() && AllDevices() == [] && history == []
      ensures fresh(received) && fresh(underEvaluation) && fresh(inRepair) && fresh(qualityCheck) && fresh(readyDelivery)
    {
      received := new DeviceQueue(Received);
      underEvaluation := new DeviceQueue(UnderEvaluation);
      inRepair := new DeviceQueue(InRepair);
      qualityCheck := new DeviceQueue(QualityCheck);
      readyDelivery := new DeviceQueue(ReadyDelivery);
      history := [];
    }

    /** No device is live twice, and no two live devices have keys alike. */
    lemma UniqueKeys()
      requires Valid()
      ensures NoDup(AllDevices()) && NoDup(Keys(AllDevices()))
    {
      var r, u, i, q := received.items, underEvaluation.items, inRepair.items, qualityCheck.items;
      NoDupConcat(r, u);
      NoDupConcat(r + u, i);
      NoDupConcat(r + u + i, q);
      NoDupConcat(r + u + i + q, readyDelivery.items);
      InjectiveKeysNoDup(AllDevices());
    }

    /** No two live devices have identifiers equal ignoring case. */
    lemma UniqueIdentifiers()
      requires Valid()
      ensures forall i, j :: 0 <= i < j < |AllDevices()| ==>
        !EqualsIgnoreCase(AllDevices()[i].identifier, AllDevices()[j].identifier)
    {
      UniqueKeys();
      UniqueKeysUniqueIdentifiers(AllDevices());
    }

    /** A lookup has at most one answer: two live devices matching one identifier are the same device. */
    lemma LookupUnique(a: Device, b: Device, identifier: string)
      requires Valid()
      requires a in AllDevices() && b in AllDevices()
      requires EqualsIgnoreCase(a.identifier, identifier) && EqualsIgnoreCase(b.identifier, identifier)
      ensures a == b
    {
    }

    /** Every live device is found by its own identifier, and it is the only match. */
    lemma Resolvable(d: Device)
      requires Valid() && d in AllDevices()
      ensures MatchCount(AllDevices(), d.identifier) == 1
    {
      UniqueKeys();
      AtMostOneMatch(AllDevices(), d.identifier);
      MatchCountPositive(AllDevices(), d.identifier, d);
    }

    /**
     * The facts that hold while device `d` is between two queues: the
     * queues keep their facts, `d` is in none of them, and the keys of the
     * queued devices and `d` are injective.
     */
    ghost predicate Detached(d: Device)
      reads received`items, underEvaluation`items, inRepair`items, qualityCheck`items, readyDelivery`items
      reads received.items`currentState, underEvaluation.items`currentState, inRepair.items`currentState
      reads qualityCheck.items`currentState, readyDelivery.items`currentState
    {
      QueuesHold() && d !in AllDevices() && KeysInjective(AllDevices() + [d])
    }

    /** Dropping a detached device leaves a valid workflow without it. */
    lemma DropDetached(d: Device)
      requires Detached(d)
      ensures Valid() && d !in AllDevices()
    {
    }

    /**
     * `workflows.get(src).removeDevice()`: on an empty queue nothing
     * changes; otherwise the head leaves the queue, still in stage `src`,
     * and is the one detached device.
     */
    method TakeHead(src: DeviceState) returns (head: Option<Device>)
      requires Valid()
      modifies Queue(src)`items
      ensures old(Stage(src)) == [] ==> head == None && Stage(src) == [] && Valid()
      ensures old(Stage(src)) != [] ==>
        && head == Some(old(Stage(src)[0]))
        && Stage(src) == old(Stage(src)[1..])
        && head.value.currentState == src
        && Detached(head.value)
        && Count() == old(Count()) - 1
    {
      head := Queue(src).RemoveDevice();
      if head.Some? {
        var d := head.value;
        assert old(Stage(src)) == [d] + Stage(src);
        assert d !in Stage(src);
        assert QueuesHold();
      }
    }

    /**
     * `workflows.get(dst).addDevice(d)` for the detached device `d`: it joins
     * the tail of that queue in stage `dst`, and the workflow is valid again.
     */
    method Put(dst: DeviceState, d: Device)
      requires Detached(d) && dst != UnderEvaluation
      modifies Queue(dst)`items, d`currentState
      ensures Valid()
      ensures Stage(dst) == old(Stage(dst)) + [d] && d.currentState == dst
      ensures Count() == old(Count()) + 1
    {
      Queue(dst).AddDevice(d);
    }

    /**
     * `findDeviceByIdentifier`: scans the stages in declaration order and
     * answers the first match found, or nothing.
     */
    method FindDeviceByIdentifier(identifier: string) returns (found: Option<Device>)
      ensures found.Some? ==> found.value in AllDevices() && EqualsIgnoreCase(found.value.identifier, identifier)
      ensures found.None? <==> MatchCount(AllDevices(), identifier) == 0
    {
      ghost var scanned: seq<Device> := [];
      for k := 0 to 5
        invariant scanned == Scanned(k)
        invariant MatchCount(scanned, identifier) == 0
      {
        ScannedStep(k);
        var items := Queue(AllStates[k]).items;
        found := ScanQueue(items, identifier);
        if found.Some? {
          MatchCountPositive(AllDevices(), identifier, found.value);
          return;
        }
        MatchCountConcat(scanned, items, identifier);
        scanned := scanned + items;
      }
      ScannedAll();
      found := None;
    }

    /** The devices of the first `k` stages in declaration order. */
    ghost function Scanned(k: nat): seq<Device>
      requires k <= 5
      reads received`items, underEvaluation`items, inRepair`items, qualityCheck`items, readyDelivery`items
    {
      if k == 0 then [] else Scanned(k - 1) + Stage(AllStates[k - 1])
    }

    /** One more stage scanned adds its devices, which are live devices. */
    lemma ScannedStep(k: nat)
      requires k < 5
      ensures Scanned(k + 1) == Scanned(k) + Stage(AllStates[k])
      ensures forall e :: e in Stage(AllStates[k]) ==> e in AllDevices()
    {
    }

    /** Scanning all five stages covers every live device. */
    lemma ScannedAll()
      ensures Scanned(5) == AllDevices()
    {
      assert Scanned(1) == received.items;
      assert Scanned(3) == received.items + underEvaluation.items + inRepair.items;
    }

    /**
     * `DataManager.logDeviceHistory(d)`: the snapshot of `d` goes to the end
     * of the history; no queue and no device changes.
     */
    method Save(d: Device)
      modifies this`history
      ensures history == old(history) + [d.Snapshot()]
      ensures AllDevices() == old(AllDevices()) && (old(Valid()) ==> Valid())
    {
      history := history + [d.Snapshot()];
    }

    /**
     * The detached device `d` joins the tail of stage `dst` and its snapshot
     * goes to the history: the last two steps of a repair.
     */
    method PlaceAndSave(dst: DeviceState, d: Device)
      requires Detached(d) && dst != UnderEvaluation
      modifies Queue(dst)`items, d`currentState, this`history
      ensures Valid() && Count() == old(Count()) + 1
      ensures Stage(dst) == old(Stage(dst)) + [d] && d.currentState == dst
      ensures history == old(history) + [d.Snapshot()]
    {
      Put(dst, d);
      Save(d);
    }

    /**
     * The detached device `d` joins the tail of stage `dst`, and `note` is
     * logged under that stage: the last steps of an admission, an
     * evaluation and a quality check.
     */
    method PlaceAndLog(dst: DeviceState, d: Device, note: string, today: Date)
      requires Detached(d) && dst != UnderEvaluation
      modifies Queue(dst)`items, d`currentState, d`activityLog, this`history
      ensures Valid() && Count() == old(Count()) + 1
      ensures Stage(dst) == old(Stage(dst)) + [d] && d.currentState == dst
      ensures d.activityLog == old(d.activityLog) + [ActivityRecord(today, note, dst)]
      ensures history == old(history) + [d.Snapshot()]
    {
      Put(dst, d);
      d.RecordActivity(note, today);
      Save(d);
    }

    /**
     * The first step of an evaluation on the device itself: the analysis is
     * kept and logged. A detached device stays detached.
     */
    method RecordAnalysis(d: Device, analysis: string, today: Date)
      modifies d`technicalAnalysis, d`activityLog
      ensures d.technicalAnalysis == Some(analysis)
      ensures old(Detached(d)) ==> Detached(d)
      ensures d.activityLog == old(d.activityLog) + [ActivityRecord(today, EvaluatedPrefix + analysis, d.currentState)]
    {
      d.SetTechnicalAnalysis(analysis);
      d.RecordActivity(EvaluatedPrefix + analysis, today);
    }

    /**
     * The first step of a repair on the device itself: the work and the
     * technician are kept and logged. A detached device stays detached.
     */
    method RecordRepair(d: Device, work: string, technician: string, today: Date)
      modifies d`repairWork, d`technicianId, d`activityLog
      ensures d.repairWork == Some(work) && d.technicianId == Some(technician)
      ensures old(Detached(d)) ==> Detached(d)
      ensures d.activityLog == old(d.activityLog) + [ActivityRecord(today, RepairNote(technician, work), d.currentState)]
    {
      d.SetRepairWork(work);
      d.SetTechnicianId(technician);
      d.RecordActivity(RepairNote(technician, work), today);
    }

    /**
     * `handleDeviceExamination`: the head of the received queue gets its
     * analysis, logged while still in the received stage, then goes to the
     * tail of the repair queue or of the delivery queue, where a second note
     * is logged under the new stage and its snapshot goes to the history.
     */
    method Evaluate(analysis: string, needsRepair: bool, today: Date) returns (outcome: Outcome)
      requires Valid()
      modifies this`history, received`items, inRepair`items, readyDelivery`items
      modifies Front(Received)`technicalAnalysis, Front(Received)`activityLog, Front(Received)`currentState
      ensures Valid() && Count() == old(Count())
      ensures old(received.items) == [] ==>
        outcome == QueueEmpty && history == old(history) && unchanged(received, inRepair, readyDelivery)
      ensures old(received.items) != [] ==>
        var d, target := old(received.items[0]), EvaluationTarget(needsRepair);
        && outcome == Done
        && received.items == old(received.items[1..])
        && inRepair.items == old(inRepair.items) + (if needsRepair then [d] else [])
        && readyDelivery.items == old(readyDelivery.items) + (if needsRepair then [] else [d])
        && d.currentState == target
        && d.technicalAnalysis == Some(analysis)
        && d.activityLog == old(d.activityLog) + [
             ActivityRecord(today, EvaluatedPrefix + analysis, Received),
             ActivityRecord(today, EvaluationNote(needsRepair), target)]
        && history == old(history) + [d.Snapshot()]
    {
      var head := TakeHead(Received);
      if head.None? {
        return QueueEmpty;
      }
      var d := head.value;
      RecordAnalysis(d, analysis, today);
      PlaceAndLog(EvaluationTarget(needsRepair), d, EvaluationNote(needsRepair), today);
      outcome := Done;
    }

    /**
     * `new Device(...)` for an identifier no live device matches: the new
     * device is the one detached device.
     */
    method NewDevice(identifier: string, issueDescription: string, entryDate: Date,
                     owner: string, ownerEmail: string, ownerPhone: string, today: Date)
      returns (d: Device)
      requires Valid() && MatchCount(AllDevices(), identifier) == 0
      ensures fresh(d) && Detached(d) && AllDevices() == old(AllDevices())
      ensures d.identifier == identifier && d.issueDescription == issueDescription
      ensures d.entryDate == entryDate && d.owner == owner
      ensures d.ownerEmail == ownerEmail && d.ownerPhone == ownerPhone
      ensures d.currentState == Received
      ensures d.technicalAnalysis == None && d.repairWork == None && d.technicianId == None
      ensures d.activityLog == [ActivityRecord(today, ReceivedPrefix + issueDescription, Received)]
    {
      d := new Device(identifier, issueDescription, entryDate, owner, ownerEmail, ownerPhone, today);
      InjectiveAfterAdding(AllDevices(), d);
    }

    /**
     * `addNewDevice`: an identifier equal ignoring case to a live one is
     * refused and nothing changes; otherwise a new device, already logged as
     * received, joins the tail of the received queue, the admission is
     * logged under the Received stage and its snapshot goes to the history.
     */
    method Admit(identifier: string, issueDescription: string, entryDate: Date,
                 owner: string, ownerEmail: string, ownerPhone: string, today: Date)
      returns (outcome: Outcome)
      requires Valid()
      modifies this`history, received`items
      ensures Valid()
      ensures outcome == DuplicateIdentifier <==> old(MatchCount(AllDevices(), identifier)) > 0
      ensures outcome == DuplicateIdentifier ==>
        unchanged(received) && history == old(history) && Count() == old(Count())
      ensures outcome != DuplicateIdentifier ==>
        && outcome == Done
        && Count() == old(Count()) + 1
        && |received.items| == old(|received.items|) + 1
        && received.items[..|received.items| - 1] == old(received.items)
        && var d := received.items[|received.items| - 1];
        && fresh(d)
        && d.identifier == identifier && d.issueDescription == issueDescription
        && d.entryDate == entryDate && d.owner == owner
        && d.ownerEmail == ownerEmail && d.ownerPhone == ownerPhone
        && d.currentState == Received
        && d.technicalAnalysis == None && d.repairWork == None && d.technicianId == None
        && d.activityLog == [
             ActivityRecord(today, ReceivedPrefix + issueDescription, Received),
             ActivityRecord(today, AdmittedNote, Received)]
        && history == old(history) + [d.Snapshot()]
    {
      var existing := FindDeviceByIdentifier(identifier);
      if existing.Some? {
        return DuplicateIdentifier;
      }
      var d := NewDevice(identifier, issueDescription, entryDate, owner, ownerEmail, ownerPhone, today);
      PlaceAndLog(Received, d, AdmittedNote, today);
      outcome := Done;
    }

    /**
     * `handleTechnicalRepair`: the head of the repair queue gets the work
     * done and the technician, the repair is logged while still in the
     * repair stage, then the device joins the tail of the quality-check
     * queue and its snapshot goes to the history.
     */
    method Repair(work: string, technician: string, today: Date) returns (outcome: Outcome)
      requires Valid()
      modifies this`history, inRepair`items, qualityCheck`items
      modifies Front(InRepair)`repairWork, Front(InRepair)`technicianId
      modifies Front(InRepair)`activityLog, Front(InRepair)`currentState
      ensures Valid() && Count() == old(Count())
      ensures old(inRepair.items) == [] ==>
        outcome == QueueEmpty && history == old(history) && unchanged(inRepair, qualityCheck)
      ensures old(inRepair.items) != [] ==>
        var d := old(inRepair.items[0]);
        && outcome == Done
        && inRepair.items == old(inRepair.items[1..])
        && qualityCheck.items == old(qualityCheck.items) + [d]
        && d.currentState == QualityCheck
        && d.repairWork == Some(work) && d.technicianId == Some(technician)
        && d.activityLog == old(d.activityLog) + [ActivityRecord(today, RepairNote(technician, work), InRepair)]
        && history == old(history) + [d.Snapshot()]
    {
      var head := TakeHead(InRepair);
      if head.None? {
        return QueueEmpty;
      }
      var d := head.value;
      RecordRepair(d, work, technician, today);
      PlaceAndSave(QualityCheck, d);
      outcome := Done;
    }

    /**
     * `handleQualityVerification`: the head of the quality-check queue goes
     * to the tail of the delivery queue when approved and back to the tail
     * of the repair queue when rejected; the verdict is logged under the new
     * stage and the snapshot goes to the history.
     */
    method Quality(approved: bool, today: Date) returns (outcome: Outcome)
      requires Valid()
      modifies this`history, qualityCheck`items, inRepair`items, readyDelivery`items
      modifies Front(QualityCheck)`activityLog, Front(QualityCheck)`currentState
      ensures Valid() && Count() == old(Count())
      ensures old(qualityCheck.items) == [] ==>
        outcome == QueueEmpty && history == old(history) && unchanged(qualityCheck, inRepair, readyDelivery)
      ensures old(qualityCheck.items) != [] ==>
        var d, target := old(qualityCheck.items[0]), QualityTarget(approved);
        && outcome == Done
        && qualityCheck.items == old(qualityCheck.items[1..])
        && Stage(target) == old(Stage(target)) + [d]
        && Stage(QualityTarget(!approved)) == old(Stage(QualityTarget(!approved)))
        && d.currentState == target
        && d.activityLog == old(d.activityLog) + [ActivityRecord(today, QualityNote(approved), target)]
        && history == old(history) + [d.Snapshot()]
    {
      var head := TakeHead(QualityCheck);
      if head.None? {
        return QueueEmpty;
      }
      PlaceAndLog(QualityTarget(approved), head.value, QualityNote(approved), today);
      outcome := Done;
    }

    /**
     * `handleCustomerDelivery`: the head of the delivery queue leaves it.
     * On confirmation the delivery is logged under the ReadyDelivery stage,
     * the snapshot goes to the history and the device leaves the workflow
     * for good; on cancellation it goes back to the tail of the same queue,
     * unlogged.
     */
    method Deliver(confirmed: bool, today: Date) returns (outcome: Outcome)
      requires Valid()
      modifies this`history, readyDelivery`items
      modifies Front(ReadyDelivery)`activityLog, Front(ReadyDelivery)`currentState
      ensures Valid()
      ensures old(readyDelivery.items) == [] ==>
        outcome == QueueEmpty && history == old(history) && unchanged(readyDelivery)
      ensures old(readyDelivery.items) != [] && confirmed ==>
        var d := old(readyDelivery.items[0]);
        && outcome == Done
        && readyDelivery.items == old(readyDelivery.items[1..])
        && d !in AllDevices() && Count() == old(Count()) - 1
        && d.currentState == ReadyDelivery
        && d.activityLog == old(d.activityLog) + [ActivityRecord(today, DeliveredNote, ReadyDelivery)]
        && history == old(history) + [d.Snapshot()]
      ensures old(readyDelivery.items) != [] && !confirmed ==>
        var d := old(readyDelivery.items[0]);
        && outcome == Cancelled
        && readyDelivery.items == old(readyDelivery.items[1..]) + [d]
        && Count() == old(Count())
        && d.currentState == ReadyDelivery && d.activityLog == old(d.activityLog)
        && history == old(history)
    {
      var head := TakeHead(ReadyDelivery);
      if head.None? {
        return QueueEmpty;
      }
      var d := head.value;
      if confirmed {
        DropDetached(d);
        d.RecordActivity(DeliveredNote, today);
        Save(d);
        outcome := Done;
      } else {
        Put(ReadyDelivery, d);
        outcome := Cancelled;
      }
    }

    /** Filtering keeps every remaining device in its stage. */
    static lemma AllAtWithout(ds: seq<Device>, s: DeviceState, id: string)
      requires AllAt(ds, s)
      ensures AllAt(Without(ds, id), s)
    {
    }

    /** `queue.getQueueList().removeIf(...)` on the queue of stage `s`. */
    method FilterStage(s: DeviceState, id: string)
      requires Wired()
      modifies Queue(s)`items
      ensures received.items == if s == Received then Without(old(received.items), id) else old(received.items)
      ensures underEvaluation.items == if s == UnderEvaluation then Without(old(underEvaluation.items), id) else old(underEvaluation.items)
      ensures inRepair.items == if s == InRepair then Without(old(inRepair.items), id) else old(inRepair.items)
      ensures qualityCheck.items == if s == QualityCheck then Without(old(qualityCheck.items), id) else old(qualityCheck.items)
      ensures readyDelivery.items == if s == ReadyDelivery then Without(old(readyDelivery.items), id) else old(readyDelivery.items)
    {
      var q := Queue(s);
      q.items := Without(q.items, id);
    }

    /** Filtering queue by queue filters the whole workflow, keeping the order. */
    lemma FilteredAll(r: seq<Device>, u: seq<Device>, i: seq<Device>, q: seq<Device>, e: seq<Device>, id: string)
      requires received.items == Without(r, id) && underEvaluation.items == Without(u, id)
      requires inRepair.items == Without(i, id) && qualityCheck.items == Without(q, id)
      requires readyDelivery.items == Without(e, id)
      ensures AllDevices() == Without(r + u + i + q + e, id)
    {
      WithoutConcat(r, u, id);
      WithoutConcat(r + u, i, id);
      WithoutConcat(r + u + i, q, id);
      WithoutConcat(r + u + i + q, e, id);
    }

    /**
     * Filtering the queues of a valid workflow leaves it valid: every stage
     * keeps only devices of that stage, none twice, and fewer devices
     * cannot bring two identifiers alike.
     */
    lemma FilteredValid(r: seq<Device>, u: seq<Device>, i: seq<Device>, q: seq<Device>, e: seq<Device>, id: string)
      requires Wired() && u == []
      requires AllAt(r, Received) && AllAt(i, InRepair) && AllAt(q, QualityCheck) && AllAt(e, ReadyDelivery)
      requires NoDup(r) && NoDup(i) && NoDup(q) && NoDup(e)
      requires KeysInjective(r + u + i + q + e)
      requires received.items == Without(r, id) && underEvaluation.items == Without(u, id)
      requires inRepair.items == Without(i, id) && qualityCheck.items == Without(q, id)
      requires readyDelivery.items == Without(e, id)
      ensures Valid() && AllDevices() == Without(r + u + i + q + e, id)
    {
      AllAtWithout(r, Received, id);
      AllAtWithout(i, InRepair, id);
      AllAtWithout(q, QualityCheck, id);
      AllAtWithout(e, ReadyDelivery, id);
      NoDupWithout(r, id);
      NoDupWithout(i, id);
      NoDupWithout(q, id);
      NoDupWithout(e, id);
      FilteredAll(r, u, i, q, e, id);
    }

    /**
     * `removeDeviceFromWorkflows`: every queue drops each device whose
     * identifier equals `target`'s ignoring case, keeping the others in
     * order; the stages are visited in declaration order.
     */
    method RemoveDeviceFromWorkflows(target: Device)
      requires Valid()
      modifies received`items, underEvaluation`items, inRepair`items, qualityCheck`items, readyDelivery`items
      ensures Valid()
      ensures received.items == Without(old(received.items), target.identifier)
      ensures underEvaluation.items == Without(old(underEvaluation.items), target.identifier)
      ensures inRepair.items == Without(old(inRepair.items), target.identifier)
      ensures qualityCheck.items == Without(old(qualityCheck.items), target.identifier)
      ensures readyDelivery.items == Without(old(readyDelivery.items), target.identifier)
      ensures AllDevices() == Without(old(AllDevices()), target.identifier)
    {
      var id := target.identifier;
      ghost var r, u, i, q, e := received.items, underEvaluation.items, inRepair.items, qualityCheck.items, readyDelivery.items;
      for k := 0 to 5
        invariant received.items == if 0 < k then Without(r, id) else r
        invariant underEvaluation.items == if 1 < k then Without(u, id) else u
        invariant inRepair.items == if 2 < k then Without(i, id) else i
        invariant qualityCheck.items == if 3 < k then Without(q, id) else q
        invariant readyDelivery.items == if 4 < k then Without(e, id) else e
      {
        AllStatesEnumerates();
        FilterStage(AllStates[k], id);
      }
      FilteredValid(r, u, i, q, e, id);
    }

    /**
     * `removeDeviceRecord`: an identifier no live device matches ignoring
     * case is reported as not found; otherwise, once confirmed, the one
     * matching device leaves every queue and the others stay in order.
     * Deleting writes nothing to the history.
     */
    method Delete(identifier: string, confirmed: bool) returns (outcome: Outcome)
      requires Valid()
      modifies received`items, underEvaluation`items, inRepair`items, qualityCheck`items, readyDelivery`items
      ensures Valid()
      ensures outcome == NotFound <==> old(MatchCount(AllDevices(), identifier)) == 0
      ensures outcome == Cancelled <==> old(MatchCount(AllDevices(), identifier)) > 0 && !confirmed
      ensures outcome != Done ==> unchanged(received, underEvaluation, inRepair, qualityCheck, readyDelivery)
      ensures outcome == Done <==> old(MatchCount(AllDevices(), identifier)) > 0 && confirmed
      ensures outcome == Done ==>
        && received.items == Without(old(received.items), identifier)
        && underEvaluation.items == Without(old(underEvaluation.items), identifier)
        && inRepair.items == Without(old(inRepair.items), identifier)
        && qualityCheck.items == Without(old(qualityCheck.items), identifier)
        && readyDelivery.items == Without(old(readyDelivery.items), identifier)
        && AllDevices() == Without(old(AllDevices()), identifier)
        && Count() == old(Count()) - 1
        && MatchCount(AllDevices(), identifier) == 0
    {
      var found := FindDeviceByIdentifier(identifier);
      if found.None? {
        return NotFound;
      }
      if !confirmed {
        return Cancelled;
      }
      var d := found.value;
      UniqueKeys();
      AtMostOneMatch(AllDevices(), identifier);
      WithoutEquivalentIds(received.items, d.identifier, identifier);
      WithoutEquivalentIds(underEvaluation.items, d.identifier, identifier);
      WithoutEquivalentIds(inRepair.items, d.identifier, identifier);
      WithoutEquivalentIds(qualityCheck.items, d.identifier, identifier);
      WithoutEquivalentIds(readyDelivery.items, d.identifier, identifier);
      WithoutEquivalentIds(AllDevices(), d.identifier, identifier);
      RemoveDeviceFromWorkflows(d);
      NothingMatchesAfterFilter(old(AllDevices()), identifier);
      outcome := Done;
    }
  }
}
