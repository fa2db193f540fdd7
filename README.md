# Repair-shop workflow engine

A model of the core of a computer repair shop's support system. Every device
the shop receives moves through five stages — received, under evaluation, in
repair, quality check, ready for delivery — each held in a first-in
first-out queue. The shop console offers the transitions: admit a device,
evaluate the head of the received queue, repair the head of the repair
queue, check the quality of the head of the quality-check queue, deliver
the head of the delivery queue, and delete a device by its serial number.
Each device keeps an activity log, and the shop appends a snapshot of a
device to a history file after most transitions.

The model is imperative, as the source is:

- `Devices.Device` is a class. Its identity fields are constants. Its
  stage, work fields and activity log are mutable.
- `Queues.DeviceQueue` is a class whose `items` sequence the methods
  reassign.
- `Engine.Workflow` holds the five queues and a ghost `history` of
  snapshots.

The console prompts become method parameters and the clock becomes a
`today` parameter. Each transition returns an `Outcome`: the console's
messages for an empty queue, a duplicate serial number, an unknown serial
number and a cancelled confirmation.

Every transition keeps the invariant `Engine.Workflow.Valid`, which has four
parts:

- every queued device carries its queue's stage;
- no device is queued twice;
- no two queued devices have serial numbers equal ignoring case;
- the under-evaluation queue stays empty, because nothing in the shop ever
  enqueues there.

Modules:

- `Strings`: ASCII `equalsIgnoreCase` and its case-folded key, plus the
  decimal rendering of dates.
- `Distinct`: sequences without repeats.
- `Devices`: `Device.java`.
- `Queues`: `DeviceQueue.java`.
- `Identifiers`: case-insensitive matching and filtering of devices.
- `Engine`: the transitions of `App.java`.

## Model

| member | source | states |
|---|---|---|
| Strings.ToUpper | src/App.java:509 | ASCII upper-casing: only 'a'..'z' move, each by 32 code points |
| Strings.ToLower | src/App.java:509 | ASCII lower-casing: only 'A'..'Z' move, each by 32 code points |
| Strings.Key | src/App.java:509 | the case-folded key has the identifier's length and lower-cases each character |
| Strings.CharEqualsIgnoreCase | src/App.java:509 | two characters are equal ignoring case exactly when their lower-case forms agree |
| Strings.EqualsIgnoreCase | src/App.java:509 | two identifiers are equal ignoring case exactly when their case-folded keys are equal |
| Strings.NatTextRoundTrip | src/Device.java:85 | the decimal digits written for a number read back as that number |
| Strings.NatTextShort | src/Device.java:85 | numbers below 10000 take at most four digits, exactly four from 1000 on, at most two below 100 and one below 10 |
| Strings.ZeroPadShape | src/Device.java:85 | zero padding reaches the width, keeps the text as a suffix and adds only zeros |
| Strings.ZeroPadValue | src/Device.java:85 | zero padding keeps the value of a digit string |
| Strings.TwoDigitRoundTrip | src/Device.java:85 | a number below 100 padded to width two is two digits that read back as that number |
| Devices.DeviceState.Label | src/Device.java:112-128 | every stage has a non-empty display label |
| Devices.LabelsDistinct | src/Device.java:113-117 | two stages with the same display label are the same stage |
| Devices.DeviceState.Ordinal | src/Device.java:112-117 | each stage's position is below 5; distinctness and declaration order are stated by `Devices.AllStatesEnumerates` |
| Devices.AllStatesEnumerates | src/Device.java:112-117 | `values()` lists each stage exactly once, at its ordinal |
| Devices.YearTextRoundTrip | src/Device.java:85 | a year from 0 to 9999 in a date's text is four digits that read back as that year |
| Devices.DateText | src/Device.java:85 | a date's text starts with its year and a dash and ends with a dash and its two-digit day |
| Devices.DateTextRoundTrip | src/Device.java:85 | a date of the years 0 to 9999 is written `yyyy-mm-dd`: ten characters whose three digit fields read back as the year, month and day |
| Devices.ActivityRecord.Text | src/Device.java:142-145 | a record's line starts with its date and ends with its bracketed stage label and description |
| Devices.LogSection | src/Device.java:104-106 | the activity part of the details is empty exactly when the log is empty |
| Devices.LogSectionAppend | src/Device.java:104-106 | recording one more activity appends exactly its line to the details |
| Devices.Device.constructor | src/Device.java:19-30 | a new device has the given identity, is in stage Received, has no work recorded and a single "received" activity |
| Devices.Device.RecordActivity | src/Device.java:32-34 | one record is appended, stamped with today and the current stage, and earlier records are kept |
| Devices.Device.SetCurrentState | src/Device.java:48-50 | the stage becomes the given one |
| Devices.Device.SetTechnicalAnalysis | src/Device.java:56-58 | the analysis becomes the given text |
| Devices.Device.SetRepairWork | src/Device.java:64-66 | the repair work becomes the given text |
| Devices.Device.SetTechnicianId | src/Device.java:72-74 | the technician becomes the given one |
| Devices.Device.Snapshot | src/DataManager.java:122-156 | a history entry records the device's identifier, stage, owner and full activity log |
| Devices.Device.Summary | src/Device.java:80-88 | the summary starts with the serial-number line and ends with the contact line |
| Devices.Device.AnalysisSection | src/Device.java:94-96 | the analysis line is present exactly when an analysis is recorded and non-empty, and ends with that analysis |
| Devices.Device.RepairSection | src/Device.java:98-101 | the repair lines are present exactly when repair work is recorded and non-empty; they start with the work and end with the technician, written "null" when missing |
| Devices.Device.DetailsHead | src/Device.java:91-103 | the head of the details is the summary, a newline, the optional analysis and repair sections and the activity header, in that order |
| Devices.Device.CompleteDetails | src/Device.java:90-109 | the complete details are the summary, a newline, the optional analysis and repair sections, the activity header and one line per log record in log order |
| Queues.DeviceQueue.constructor | src/DeviceQueue.java:9-12 | a new queue is empty and bound to its stage |
| Queues.DeviceQueue.AddDevice | src/DeviceQueue.java:14-17 | the device moves to the queue's stage and is appended at the tail; the size grows by one |
| Queues.DeviceQueue.RemoveDevice | src/DeviceQueue.java:19-21 | an empty queue answers nothing and stays empty; otherwise the head is answered and removed |
| Queues.DeviceQueue.ViewNext | src/DeviceQueue.java:23-25 | answers nothing exactly when the queue is empty, and otherwise the head, without removing it |
| Queues.DeviceQueue.IsEmpty | src/DeviceQueue.java:27-29 | empty exactly when the size is zero |
| Queues.DeviceQueue.Size | src/DeviceQueue.java:31-33 | the size is zero exactly when no device waits |
| Queues.FirstInFirstOut | src/DeviceQueue.java:14-21 | of two devices added in turn to an empty queue, the first added is the first removed, and both carry the queue's stage |
| Identifiers.InjectiveKeysNoDup | src/App.java:99 | distinct devices with no two identifiers alike ignoring case have distinct case-folded keys |
| Identifiers.InjectiveAfterAdding | src/App.java:99-117 | a device that no queued device matches can be added without two identifiers becoming alike |
| Identifiers.UniqueKeysUniqueIdentifiers | src/App.java:99 | distinct keys mean no two devices have identifiers equal ignoring case |
| Identifiers.Without | src/App.java:519-520 | the filter keeps exactly the devices that do not match, and its length drops by the number of matches |
| Identifiers.WithoutConcat | src/App.java:518-521 | filtering queue by queue is filtering all the devices at once, in order |
| Identifiers.MatchCountConcat | src/App.java:507-513 | the matches of two runs of devices add up |
| Identifiers.WithoutEquivalentIds | src/App.java:520 | filtering by either of two identifiers equal ignoring case removes the same devices |
| Identifiers.AtMostOneMatch | src/App.java:506-515 | with distinct keys, at most one device matches any identifier |
| Identifiers.MatchCountNone | src/App.java:506-515 | when no device matches, the count of matches is zero |
| Identifiers.MatchCountPositive | src/App.java:506-515 | a matching device makes the count of matches positive |
| Identifiers.NoDupWithout | src/App.java:519-520 | filtering keeps a queue free of repeated devices |
| Identifiers.NothingMatchesAfterFilter | src/App.java:519-520 | after the filter no device matches the identifier |
| Engine.Workflow.RecordAnalysis | src/App.java:160-161 | the analysis is stored and logged under the device's current stage; a device between two queues stays so |
| Engine.Workflow.RecordRepair | src/App.java:223-225 | the work and the technician are stored and the repair is logged under the current stage; a device between two queues stays so |
| Engine.Workflow.Queue | src/App.java:146 | in a wired workflow, the queue looked up for a stage is the one bound to that stage |
| Engine.Workflow.constructor | src/DataManager.java:105-115 | the default structure: one newly created empty queue per stage, valid, with nothing in the history |
| Engine.Workflow.UniqueKeys | src/App.java:99 | in a valid workflow no device is queued twice and no two queued devices share a case-folded key |
| Engine.Workflow.UniqueIdentifiers | src/App.java:99 | in a valid workflow no two queued devices have identifiers equal ignoring case |
| Engine.Workflow.LookupUnique | src/App.java:506-515 | two queued devices matching one identifier are the same device, so a lookup has at most one answer |
| Engine.Workflow.Resolvable | src/App.java:506-515 | every queued device is matched by its own identifier, and by no other queued device |
| Engine.Workflow.DropDetached | src/App.java:335-338 | a device taken out of its queue and not put back leaves a valid workflow without it |
| Engine.Workflow.TakeHead | src/DeviceQueue.java:19-21 | an empty stage is left unchanged; otherwise its head leaves it, still in that stage, and nothing else is lost |
| Engine.Workflow.Put | src/DeviceQueue.java:14-17 | the detached device joins the tail of the target stage in that stage, and the workflow is valid again |
| Engine.Workflow.FindDeviceByIdentifier | src/App.java:506-515 | a device is answered only if it is queued and matches ignoring case, and nothing is answered exactly when no queued device matches |
| Engine.ScanQueue | src/App.java:508-512 | answers a device of the queue that matches ignoring case with no match before it, and nothing exactly when no device of the queue matches |
| Engine.Workflow.ScannedStep | src/App.java:507 | scanning one more stage adds exactly its devices, all of them queued devices |
| Engine.Workflow.ScannedAll | src/App.java:507 | scanning all five stages covers every queued device |
| Engine.Workflow.Save | src/DataManager.java:161 | the device's snapshot is appended to the history and no queue changes |
| Engine.Workflow.PlaceAndSave | src/App.java:227-229 | the device joins the tail of the target stage and its snapshot goes to the history |
| Engine.Workflow.PlaceAndLog | src/App.java:172-173 | the device joins the tail of the target stage, the note is logged under that stage, and the snapshot goes to the history |
| Engine.Workflow.Evaluate | src/App.java:137-195 | an empty received queue changes nothing; otherwise its head gets the analysis (logged as received), moves to the repair or delivery tail, logs where it went and is saved; no device is gained or lost |
| Engine.Workflow.NewDevice | src/App.java:114-115 | the new device has the given fields and can join the workflow without two identifiers becoming alike |
| Engine.Workflow.Admit | src/App.java:90-135 | an identifier matching a queued one ignoring case is refused with nothing changed; otherwise a fresh device with the given fields and a two-record log joins the received tail and is saved |
| Engine.Workflow.Repair | src/App.java:197-244 | an empty repair queue changes nothing; otherwise its head gets the work and the technician (logged in repair), joins the quality-check tail and is saved |
| Engine.Workflow.Quality | src/App.java:246-303 | an empty quality-check queue changes nothing; otherwise its head goes to the delivery tail when approved or back to the repair tail when rejected, the verdict is logged under the new stage and the device is saved |
| Engine.Workflow.Deliver | src/App.java:305-356 | an empty delivery queue changes nothing; a confirmed delivery logs the handover, saves the device and removes it from the workflow; a cancelled one moves the head to the tail, unlogged |
| Engine.Workflow.AllAtWithout | src/App.java:519-520 | filtering a queue leaves every remaining device in its stage |
| Engine.Workflow.FilterStage | src/App.java:519-520 | the queue of the given stage drops its matching devices and keeps the rest in order; the other four queues are unchanged |
| Engine.Workflow.FilteredAll | src/App.java:518-521 | filtering every queue filters all the queued devices at once, in order |
| Engine.Workflow.FilteredValid | src/App.java:517-522 | filtering every queue of a valid workflow by one identifier leaves it valid |
| Engine.Workflow.RemoveDeviceFromWorkflows | src/App.java:517-522 | every queue drops the devices matching the target's identifier ignoring case and keeps the others in order, and the workflow stays valid |
| Engine.Workflow.Delete | src/App.java:358-410 | an unknown identifier is reported as not found and a refused confirmation as cancelled, both with nothing changed; a confirmed delete of a known identifier always succeeds and removes exactly the one match from its queue, so no device matches afterwards |

## Left out

- Persistence: `DataManager.saveSystemData` and `loadSystemData` are not part of this model. The workflow starts from the default structure of five empty queues. A saved file with arbitrary contents, for example a device in the under-evaluation queue, is not modelled.
- The history file: `logDeviceHistory` becomes an append of a snapshot to the ghost `history`. The snapshot leaves out the wall-clock time that the file records, and leaves out the file's layout.
- The console: prompts, menus, `pauseExecution`, `clearConsole` and the "try again?" loops are not modelled. Each transition is one attempt, and its answers are parameters: the analysis, whether a repair is needed, the work, the technician, the verdict and the confirmations.
- Input validation (`getValidStringInput`, `getValidEmail`, `getValidPhone`, `getValidDate`) is not modelled. The model accepts any strings and dates it is given.
- Exceptions: a failure after a device has left its queue (for example the console's input closing) is not modelled. In the source such a failure would lose that device.
- The clock: `LocalDate.now()` is the `today` parameter.
- `viewSystemQueues` and `viewCompleteHistory` only print, so they are not modelled.
- Display labels and emoji are carried as opaque text.
- `Strings.EqualsIgnoreCase`: only ASCII letters change case. Java's full Unicode case mapping is not modelled.
- Engine.Workflow.FindDeviceByIdentifier: the queues are scanned in stage declaration order. Java scans a `HashMap`'s values, whose order is unspecified. The contract therefore does not say which match is answered when several match. Under `Valid` at most one device matches (`Engine.Workflow.LookupUnique`), so the order makes no difference.
- Engine.Workflow.RemoveDeviceFromWorkflows: the stages are filtered in declaration order rather than in `HashMap` order. Each stage is filtered independently, so the result is the same.
- `getWorkflowState` and `getQueueList` are the fields `workflowState` and `items`. `size` is `Size`. The getters of `Device` are its fields.
- Java `null` strings are `Option` values. The setters take only non-null strings, which is all the workflow passes them.
