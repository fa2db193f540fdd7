/**
 * The device record of the repair shop: the five workflow stages, the
 * activity records a device accumulates, and the device itself with its
 * fixed identity fields, its mutable work fields and its display texts.
 */
module Devices {
  import opened Strings
  import opened Distinct

  /** The stages of the repair pipeline, in declaration order. */
  datatype DeviceState = Received | UnderEvaluation | InRepair | QualityCheck | ReadyDelivery
  {
    /** `toString`: the display label; its text is opaque to the workflow. */
    function Label(): (r: string)
      ensures r != ""
    {
      match this
      case Received => "📥 Recibido"
      case UnderEvaluation => "🔍 En Evaluación"
      case InRepair => "🛠️ En Reparación"
      case QualityCheck => "✅ Control de Calidad"
      case ReadyDelivery => "📦 Listo para Entrega"
    }

    /** Position in the declaration order. */
    function Ordinal(): (n: nat)
      ensures n < 5
    {
      match this
      case Received => 0
      case UnderEvaluation => 1
      case InRepair => 2
      case QualityCheck => 3
      case ReadyDelivery => 4
    }
  }

  /** No two stages share a display label. */
  lemma LabelsDistinct(s: DeviceState, t: DeviceState)
    requires s.Label() == t.Label()
    ensures s == t
  {
    assert s.Label()[0] == t.Label()[0];
  }

  /** `DeviceState.values()`. */
  const AllStates: seq<DeviceState> := [Received, UnderEvaluation, InRepair, QualityCheck, ReadyDelivery]

  /** Every stage appears in `AllStates` once, at its ordinal. */
  lemma AllStatesEnumerates()
    ensures |AllStates| == 5 && NoDup(AllStates)
    ensures forall s: DeviceState :: AllStates[s.Ordinal()] == s
    ensures forall k :: 0 <= k < 5 ==> AllStates[k].Ordinal() == k
  {
  }

  /** A calendar date (`LocalDate`), kept as its three components. */
  datatype Date = Date(year: int, month: nat, day: nat)

  /** `LocalDate.toString`: ISO year, then zero-padded month and day. */
  function DateText(d: Date): (r: string)
    ensures StartsWith(r, YearText(d.year) + "-")
    ensures EndsWith(r, "-" + ZeroPad(NatText(d.day), 2))
  {
    var year := YearText(d.year) + "-";
    var day := "-" + ZeroPad(NatText(d.day), 2);
    Framed(year, ZeroPad(NatText(d.month), 2), day);
    year + ZeroPad(NatText(d.month), 2) + day
  }

  /**
   * A date of the years 0 to 9999 renders as `yyyy-mm-dd`: ten characters,
   * dashes at positions 4 and 7, and digit fields that read back as the
   * year, month and day.
   */
  lemma DateTextRoundTrip(d: Date)
    requires 0 <= d.year <= 9999 && 1 <= d.month <= 12 && 1 <= d.day <= 31
    ensures |DateText(d)| == 10 && DateText(d)[4] == '-' && DateText(d)[7] == '-'
    ensures IsDigits(DateText(d)[..4]) && DigitsValue(DateText(d)[..4]) == d.year
    ensures IsDigits(DateText(d)[5..7]) && DigitsValue(DateText(d)[5..7]) == d.month
    ensures IsDigits(DateText(d)[8..]) && DigitsValue(DateText(d)[8..]) == d.day
  {
    var y, m, dd := YearText(d.year), ZeroPad(NatText(d.month), 2), ZeroPad(NatText(d.day), 2);
    YearTextRoundTrip(d.year);
    TwoDigitRoundTrip(d.month);
    TwoDigitRoundTrip(d.day);
    var r := DateText(d);
    assert r == y + "-" + m + "-" + dd;
    assert r[..4] == y && r[5..7] == m && r[8..] == dd;
  }

  /**
   * The year part of `LocalDate.toString`: padded to four digits, signed when
   * negative, and prefixed with '+' beyond four digits. A year of the common
   * era up to 9999 reads back from its four digits.
   */
  function YearText(y: int): string
  {
    var a := if y < 0 then -y else y;
    if a < 1000 then
      (if y < 0 then "-" else "") + ZeroPad(NatText(a), 4)
    else
      (if y > 9999 then "+" else if y < 0 then "-" else "") + NatText(a)
  }

  /** A year from 0 to 9999 renders as four digits that read back as that year. */
  lemma YearTextRoundTrip(y: int)
    requires 0 <= y <= 9999
    ensures |YearText(y)| == 4 && IsDigits(YearText(y)) && DigitsValue(YearText(y)) == y
  {
    NatTextRoundTrip(y);
    NatTextShort(y);
    ZeroPadValue(NatText(y), 4);
    ZeroPadShape(NatText(y), 4);
    if y < 1000 {
      assert YearText(y) == ZeroPad(NatText(y), 4);
    } else {
      assert YearText(y) == NatText(y);
    }
  }

  /** One entry of a device's activity log; never changed once created. */
  datatype ActivityRecord = ActivityRecord(timestamp: Date, description: string, deviceState: DeviceState)
  {
    /** The display line: date, stage label in brackets, then the description. */
    function Text(): (r: string)
      ensures StartsWith(r, "📅 " + DateText(timestamp))
      ensures EndsWith(r, "[" + deviceState.Label() + "] " + description)
    {
      var head := "📅 " + DateText(timestamp);
      var tail := "[" + deviceState.Label() + "] " + description;
      Framed(head, " - ", tail);
      head + " - " + tail
    }
  }

  /** What one history entry records about a device at the moment it is written. */
  datatype HistoryEntry = HistoryEntry(
    identifier: string,
    state: DeviceState,
    owner: string,
    technicalAnalysis: Option<string>,
    repairWork: Option<string>,
    technicianId: Option<string>,
    activityLog: seq<ActivityRecord>)

  const ReceivedPrefix := "Equipo recibido en el sistema: "
  const AnalysisLabel := "🔍 Análisis técnico: "
  const RepairLabel := "🛠️ Trabajo realizado: "
  const TechnicianLabel := "👨‍🔧 Técnico asignado: "
  const ActivityHeader := "\n📜 Registro de actividades:\n"

  /** A Java string field that is neither null nor empty. */
  predicate Filled(s: Option<string>)
  {
    s.Some? && s.value != ""
  }

  /** The indented details line of one activity record. */
  function LogLine(rec: ActivityRecord): string
  {
    "   " + rec.Text() + "\n"
  }

  /** The activity section of the details: one line per record, in log order. */
  function LogSection(log: seq<ActivityRecord>): (r: string)
    ensures log == [] <==> r == ""
  {
    if log == [] then "" else LogLine(log[0]) + LogSection(log[1..])
  }

  /** Appending a record to the log appends exactly its line to the section. */
  lemma {:induction false} LogSectionAppend(log: seq<ActivityRecord>, rec: ActivityRecord)
    ensures LogSection(log + [rec]) == LogSection(log) + LogLine(rec)
  {
    if log != [] {
      assert (log + [rec])[1..] == log[1..] + [rec];
      LogSectionAppend(log[1..], rec);
      assert LogLine(log[0]) + (LogSection(log[1..]) + LogLine(rec))
          == LogLine(log[0]) + LogSection(log[1..]) + LogLine(rec);
    } else {
      assert log + [rec] == [rec];
    }
  }

  class Device {
    const identifier: string
    const issueDescription: string
    const entryDate: Date
    const owner: string
    const ownerEmail: string
    const ownerPhone: string
    var activityLog: seq<ActivityRecord>
    var currentState: DeviceState
    var technicalAnalysis: Option<string>
    var repairWork: Option<string>
    var technicianId: Option<string>

    /**
     * A new device starts in the Received stage with no work recorded and a
     * single "received" activity. `today` stands for the clock reading.
     */
    constructor (identifier: string, issueDescription: string, entryDate: Date,
                 owner: string, ownerEmail: string, ownerPhone: string, today: Date)
      ensures this.identifier == identifier && this.issueDescription == issueDescription
      ensures this.entryDate == entryDate && this.owner == owner
      ensures this.ownerEmail == ownerEmail && this.ownerPhone == ownerPhone
      ensures currentState == Received
      ensures technicalAnalysis == None && repairWork == None && technicianId == None
      ensures activityLog == [ActivityRecord(today, ReceivedPrefix + issueDescription, Received)]
    {
      this.identifier := identifier;
      this.issueDescription := issueDescription;
      this.entryDate := entryDate;
      this.owner := owner;
      this.ownerEmail := ownerEmail;
      this.ownerPhone := ownerPhone;
      currentState := Received;
      technicalAnalysis, repairWork, technicianId := None, None, None;
      activityLog := [ActivityRecord(today, ReceivedPrefix + issueDescription, Received)];
    }

    /** Appends one record stamped with today's date and the current stage; earlier records are kept. */
    method RecordActivity(description: string, today: Date)
      modifies this`activityLog
      ensures activityLog == old(activityLog) + [ActivityRecord(today, description, currentState)]
    {
      var rec := ActivityRecord(today, description, currentState);
      activityLog := activityLog + [rec];
    }

    method SetCurrentState(state: DeviceState)
      modifies this`currentState
      ensures currentState == state
    {
      currentState := state;
    }

    method SetTechnicalAnalysis(analysis: string)
      modifies this`technicalAnalysis
      ensures technicalAnalysis == Some(analysis)
    {
      technicalAnalysis := Some(analysis);
    }

    method SetRepairWork(work: string)
      modifies this`repairWork
      ensures repairWork == Some(work)
    {
      repairWork := Some(work);
    }

    method SetTechnicianId(technician: string)
      modifies this`technicianId
      ensures technicianId == Some(technician)
    {
      technicianId := Some(technician);
    }

    /** The record written to the history log for this device. */
    function Snapshot(): (e: HistoryEntry)
      reads this
      ensures e.identifier == identifier && e.state == currentState && e.owner == owner
      ensures e.activityLog == activityLog
    {
      HistoryEntry(identifier, currentState, owner, technicalAnalysis, repairWork, technicianId, activityLog)
    }

    /** `toString`: serial number first, contact last, with the stage label in between. */
    function Summary(): (r: string)
      reads this`currentState, this`technicalAnalysis, this`repairWork, this`technicianId
      ensures StartsWith(r, "🔢 Número de serie: " + identifier + "\n")
      ensures EndsWith(r, "\n📞 Contacto: " + ownerEmail + " / " + ownerPhone)
    {
      var head := "🔢 Número de serie: " + identifier + "\n";
      var middle := "👤 Propietario: " + owner +
                    "\n📊 Estado actual: " + currentState.Label() +
                    "\n📅 Fecha de ingreso: " + DateText(entryDate) +
                    "\n🔧 Descripción del problema: " + issueDescription;
      var tail := "\n📞 Contacto: " + ownerEmail + " / " + ownerPhone;
      Framed(head, middle, tail);
      head + middle + tail
    }

    /** The analysis line, present exactly when an analysis is recorded. */
    function AnalysisSection(): (r: string)
      reads this`currentState, this`technicalAnalysis, this`repairWork, this`technicianId
      ensures r != "" <==> Filled(technicalAnalysis)
      ensures Filled(technicalAnalysis) ==> EndsWith(r, technicalAnalysis.value + "\n")
    {
      if Filled(technicalAnalysis) then
        SuffixOfConcat(AnalysisLabel, technicalAnalysis.value + "\n");
        AnalysisLabel + (technicalAnalysis.value + "\n")
      else ""
    }

    /**
     * The repair-work and technician lines, present exactly when repair work
     * is recorded; the technician line is written even for a null technician.
     */
    function RepairSection(): (r: string)
      reads this`currentState, this`technicalAnalysis, this`repairWork, this`technicianId
      ensures r != "" <==> Filled(repairWork)
      ensures Filled(repairWork) ==>
        StartsWith(r, RepairLabel + repairWork.value + "\n") &&
        EndsWith(r, TechnicianLabel + NullableText(technicianId) + "\n")
    {
      if Filled(repairWork) then
        var work := RepairLabel + repairWork.value + "\n";
        var technician := TechnicianLabel + NullableText(technicianId) + "\n";
        PrefixOfConcat(work, technician);
        SuffixOfConcat(work, technician);
        work + technician
      else ""
    }

    /**
     * Everything in the details before the log lines: the summary and a
     * newline, the optional analysis and repair lines, and the activity header.
     */
    function DetailsHead(): (r: string)
      reads this`currentState, this`technicalAnalysis, this`repairWork, this`technicianId
      ensures StartsWith(r, Summary() + "\n")
      ensures EndsWith(r, ActivityHeader)
      ensures r == Summary() + "\n" + AnalysisSection() + RepairSection() + ActivityHeader
    {
      var head := Summary() + "\n";
      PrefixOfConcat(head, AnalysisSection() + RepairSection() + ActivityHeader);
      SuffixOfConcat(head + AnalysisSection() + RepairSection(), ActivityHeader);
      head + AnalysisSection() + RepairSection() + ActivityHeader
    }

    /** `getCompleteDetails`: the head followed by one line per log entry, in log order. */
    function CompleteDetails(): (r: string)
      reads this
      ensures StartsWith(r, Summary() + "\n")
      ensures EndsWith(r, ActivityHeader + LogSection(activityLog))
      ensures r == Summary() + "\n" + AnalysisSection() + RepairSection() + ActivityHeader + LogSection(activityLog)
    {
      var head := DetailsHead();
      var log := LogSection(activityLog);
      PrefixOfConcat(head, log);
      StartsWithTransitive(head + log, head, Summary() + "\n");
      EndsWithAppend(head, ActivityHeader, log);
      head + log
    }
  }
}
