/** The operating-data logging form: the conductivity-to-TDS estimate, the
    edit handler that keeps each stream's TDS paired with its conductivity,
    and the submit handler that appends the current reading to the log.

    The handlers are modelled twice. `AliasedLogger` follows the source's
    objects: the edit handler copies only the outer entry and writes into the
    nested pressure, flow and water-quality objects, which every logged entry
    shares. `Logger` is the value model the form evidently intends, in which
    a logged entry is a snapshot. */
module DataLogging {
  import opened MathLib

  // ---------------------------------------------------------------------
  // Conductivity to TDS
  // ---------------------------------------------------------------------

  /** `calculateTDS`: conductivity (µS/cm) to TDS (mg/L) in four bands;
      each boundary value belongs to the lower band. */
  function ConductivityToTds(conductivity: real): real
  {
    if conductivity <= 1.0 then conductivity * 0.50
    else if conductivity <= 80.0 then conductivity * 0.55
    else if conductivity <= 6000.0 then conductivity * 0.70
    else conductivity * 0.75
  }

  /** The band factor applied to each conductivity. */
  lemma ConductivityBands(c: real)
    ensures c <= 1.0 ==> ConductivityToTds(c) == 0.50 * c
    ensures 1.0 < c <= 80.0 ==> ConductivityToTds(c) == 0.55 * c
    ensures 80.0 < c <= 6000.0 ==> ConductivityToTds(c) == 0.70 * c
    ensures 6000.0 < c ==> ConductivityToTds(c) == 0.75 * c
  {
  }

  /** Zero maps to zero, the estimate keeps the sign of the reading, and it
      never exceeds three quarters of a non-negative reading. */
  lemma ConductivityToTdsRange(c: real)
    ensures ConductivityToTds(0.0) == 0.0
    ensures c >= 0.0 ==> 0.0 <= ConductivityToTds(c) <= 0.75 * c
    ensures c > 0.0 ==> ConductivityToTds(c) > 0.0
  {
  }

  /** A higher conductivity always gives a higher TDS, across the band
      boundaries as well. */
  lemma ConductivityToTdsMonotone(a: real, b: real)
    requires a < b
    ensures ConductivityToTds(a) < ConductivityToTds(b)
  {
  }

  // ---------------------------------------------------------------------
  // The entry as values
  // ---------------------------------------------------------------------

  datatype Pressures = Pressures(
    feed: real, permeate: real, concentrate: real, dropPerStage: real, dropPerFilter: real)

  /** A quantity read on each of the three streams. */
  datatype Streams = Streams(feed: real, permeate: real, concentrate: real)

  datatype WaterQuality = WaterQuality(conductivity: Streams, tds: Streams, ph: real, temperature: real)

  /** One logged reading; the timestamp is the clock reading at submission. */
  datatype LogEntry = LogEntry(timestamp: int, pressures: Pressures, flows: Streams, waterQuality: WaterQuality)

  datatype PressureField = FeedPressure | PermeatePressure | ConcentratePressure | DropPerStage | DropPerFilter

  datatype Stream = Feed | Permeate | Concentrate

  /** The input a change event names: its category and subcategory. */
  datatype Target =
    | PressureOf(pressure: PressureField)
    | FlowOf(flow: Stream)
    | ConductivityOf(stream: Stream)
    | Ph
    | Temperature
    | Unknown

  function GetPressure(p: Pressures, f: PressureField): real
  {
    match f
    case FeedPressure => p.feed
    case PermeatePressure => p.permeate
    case ConcentratePressure => p.concentrate
    case DropPerStage => p.dropPerStage
    case DropPerFilter => p.dropPerFilter
  }

  function SetPressure(p: Pressures, f: PressureField, v: real): (r: Pressures)
    ensures GetPressure(r, f) == v
    ensures forall g :: g != f ==> GetPressure(r, g) == GetPressure(p, g)
  {
    match f
    case FeedPressure => p.(feed := v)
    case PermeatePressure => p.(permeate := v)
    case ConcentratePressure => p.(concentrate := v)
    case DropPerStage => p.(dropPerStage := v)
    case DropPerFilter => p.(dropPerFilter := v)
  }

  function GetStream(s: Streams, st: Stream): real
  {
    match st
    case Feed => s.feed
    case Permeate => s.permeate
    case Concentrate => s.concentrate
  }

  function SetStream(s: Streams, st: Stream, v: real): (r: Streams)
    ensures GetStream(r, st) == v
    ensures forall other :: other != st ==> GetStream(r, other) == GetStream(s, other)
  {
    match st
    case Feed => s.(feed := v)
    case Permeate => s.(permeate := v)
    case Concentrate => s.(concentrate := v)
  }

  /** Every stream's TDS is the estimate from its conductivity. */
  predicate Paired(q: WaterQuality)
  {
    forall st :: GetStream(q.tds, st) == ConductivityToTds(GetStream(q.conductivity, st))
  }

  /** The form's starting entry: all readings 0, pH 7, 25 °C. */
  function InitialEntry(now: int): (e: LogEntry)
    ensures Paired(e.waterQuality)
  {
    LogEntry(now,
      Pressures(0.0, 0.0, 0.0, 0.0, 0.0),
      Streams(0.0, 0.0, 0.0),
      WaterQuality(Streams(0.0, 0.0, 0.0), Streams(0.0, 0.0, 0.0), 7.0, 25.0))
  }

  /** `handleInputChange` as the form intends it: the named reading takes
      the input (an unreadable input reads as 0); a conductivity also resets
      the TDS of its stream; an unknown target changes nothing. */
  function ApplyInput(e: LogEntry, target: Target, input: Field): (r: LogEntry)
    ensures r.timestamp == e.timestamp
    ensures Paired(e.waterQuality) ==> Paired(r.waterQuality)
  {
    var v := OrZero(input);
    match target
    case PressureOf(f) => e.(pressures := SetPressure(e.pressures, f, v))
    case FlowOf(st) => e.(flows := SetStream(e.flows, st, v))
    case ConductivityOf(st) =>
      e.(waterQuality := e.waterQuality.(
        conductivity := SetStream(e.waterQuality.conductivity, st, v),
        tds := SetStream(e.waterQuality.tds, st, ConductivityToTds(v))))
    case Ph => e.(waterQuality := e.waterQuality.(ph := v))
    case Temperature => e.(waterQuality := e.waterQuality.(temperature := v))
    case Unknown => e
  }

  /** A pressure, flow, pH or temperature edit changes that one reading and
      nothing else; unreadable input is stored as 0. */
  lemma EditChangesOnlyTarget(e: LogEntry, target: Target, input: Field)
    ensures target.PressureOf? ==>
              && GetPressure(ApplyInput(e, target, input).pressures, target.pressure) == OrZero(input)
              && (forall g :: g != target.pressure ==>
                    GetPressure(ApplyInput(e, target, input).pressures, g) == GetPressure(e.pressures, g))
              && ApplyInput(e, target, input).flows == e.flows
              && ApplyInput(e, target, input).waterQuality == e.waterQuality
    ensures target.FlowOf? ==>
              && GetStream(ApplyInput(e, target, input).flows, target.flow) == OrZero(input)
              && (forall g :: g != target.flow ==>
                    GetStream(ApplyInput(e, target, input).flows, g) == GetStream(e.flows, g))
              && ApplyInput(e, target, input).pressures == e.pressures
              && ApplyInput(e, target, input).waterQuality == e.waterQuality
    ensures target.Ph? ==>
              ApplyInput(e, target, input) == e.(waterQuality := e.waterQuality.(ph := OrZero(input)))
    ensures target.Temperature? ==>
              ApplyInput(e, target, input)
                == e.(waterQuality := e.waterQuality.(temperature := OrZero(input)))
    ensures !input.Num? ==> ApplyInput(e, target, input) == ApplyInput(e, target, Num(0.0))
    ensures target.Unknown? ==> ApplyInput(e, target, input) == e
  {
  }

  /** A conductivity edit sets the reading and its stream's TDS together
      and leaves the other streams, pressures and flows alone. */
  lemma ConductivityEditPairs(e: LogEntry, st: Stream, input: Field)
    ensures GetStream(ApplyInput(e, ConductivityOf(st), input).waterQuality.conductivity, st) == OrZero(input)
    ensures GetStream(ApplyInput(e, ConductivityOf(st), input).waterQuality.tds, st)
              == ConductivityToTds(OrZero(input))
    ensures forall other :: other != st ==>
              && GetStream(ApplyInput(e, ConductivityOf(st), input).waterQuality.tds, other)
                   == GetStream(e.waterQuality.tds, other)
              && GetStream(ApplyInput(e, ConductivityOf(st), input).waterQuality.conductivity, other)
                   == GetStream(e.waterQuality.conductivity, other)
    ensures ApplyInput(e, ConductivityOf(st), input).pressures == e.pressures
    ensures ApplyInput(e, ConductivityOf(st), input).flows == e.flows
  {
  }

  /** The form's state: the entry being edited and the submitted log. */
  datatype Logger = Logger(entry: LogEntry, logs: seq<LogEntry>)

  /** `handleSubmit` as the form intends it: a snapshot of the entry,
      stamped with the clock reading, goes at the end of the log. */
  function HandleSubmit(s: Logger, now: int): (r: Logger)
    ensures |r.logs| == |s.logs| + 1
    ensures r.logs[..|s.logs|] == s.logs
    ensures r.logs[|s.logs|].timestamp == now
    ensures r.logs[|s.logs|].pressures == s.entry.pressures
    ensures r.logs[|s.logs|].flows == s.entry.flows
    ensures r.logs[|s.logs|].waterQuality == s.entry.waterQuality
    ensures r.entry == s.entry
  {
    Logger(s.entry, s.logs + [s.entry.(timestamp := now)])
  }

  /** An edit of the form in the value model. */
  function Edit(s: Logger, target: Target, input: Field): (r: Logger)
    ensures r.logs == s.logs
  {
    s.(entry := ApplyInput(s.entry, target, input))
  }

  /** Every entry the form holds or has logged keeps TDS paired with
      conductivity. */
  ghost predicate AllPaired(s: Logger)
  {
    Paired(s.entry.waterQuality) && forall k :: 0 <= k < |s.logs| ==> Paired(s.logs[k].waterQuality)
  }

  /** The pairing holds from the start and survives every edit and submit. */
  lemma PairingInvariant(s: Logger, now: int, target: Target, input: Field)
    ensures AllPaired(Logger(InitialEntry(now), []))
    ensures AllPaired(s) ==> AllPaired(Edit(s, target, input))
    ensures AllPaired(s) ==> AllPaired(HandleSubmit(s, now))
  {
    if AllPaired(s) {
      var r := HandleSubmit(s, now);
      forall k | 0 <= k < |r.logs| ensures Paired(r.logs[k].waterQuality) {
        if k < |s.logs| {
          assert r.logs[k] == s.logs[k];
        }
      }
    }
  }

  /** A submitted reading stays as it was submitted whatever is edited
      afterwards. */
  lemma SubmittedEntryIsSnapshot(s: Logger, now: int, target: Target, input: Field)
    ensures Edit(HandleSubmit(s, now), target, input).logs[|s.logs|].pressures == s.entry.pressures
    ensures Edit(HandleSubmit(s, now), target, input).logs[|s.logs|].flows == s.entry.flows
    ensures Edit(HandleSubmit(s, now), target, input).logs[|s.logs|].waterQuality == s.entry.waterQuality
  {
  }

  // ---------------------------------------------------------------------
  // The entry as the source's objects
  // ---------------------------------------------------------------------

  class PressuresObject {
    var feed: real
    var permeate: real
    var concentrate: real
    var dropPerStage: real
    var dropPerFilter: real

    constructor()
      ensures feed == 0.0 && permeate == 0.0 && concentrate == 0.0
      ensures dropPerStage == 0.0 && dropPerFilter == 0.0
    {
      feed, permeate, concentrate, dropPerStage, dropPerFilter := 0.0, 0.0, 0.0, 0.0, 0.0;
    }
  }

  class StreamsObject {
    var feed: real
    var permeate: real
    var concentrate: real

    constructor()
      ensures feed == 0.0 && permeate == 0.0 && concentrate == 0.0
    {
      feed, permeate, concentrate := 0.0, 0.0, 0.0;
    }

    method Put(st: Stream, v: real)
      modifies this
      ensures StreamsOf(this) == SetStream(old(StreamsOf(this)), st, v)
    {
      match st
      case Feed => feed := v;
      case Permeate => permeate := v;
      case Concentrate => concentrate := v;
    }
  }

  class QualityObject {
    const conductivity: StreamsObject
    const tds: StreamsObject
    var ph: real
    var temperature: real

    constructor()
      ensures fresh(conductivity) && fresh(tds) && conductivity != tds
      ensures ph == 7.0 && temperature == 25.0
    {
      conductivity := new StreamsObject();
      tds := new StreamsObject();
      ph, temperature := 7.0, 25.0;
    }
  }

  /** The outer entry object: a timestamp and references to the nested
      objects. `{ ...entry }` makes a new one of these sharing the nested
      objects. */
  class EntryObject {
    const timestamp: int
    const pressures: PressuresObject
    const flows: StreamsObject
    const waterQuality: QualityObject

    constructor(timestamp: int, pressures: PressuresObject, flows: StreamsObject, waterQuality: QualityObject)
      ensures this.timestamp == timestamp && this.pressures == pressures
      ensures this.flows == flows && this.waterQuality == waterQuality
    {
      this.timestamp := timestamp;
      this.pressures := pressures;
      this.flows := flows;
      this.waterQuality := waterQuality;
    }
  }

  /** The readings a stream object holds now. */
  function StreamsOf(s: StreamsObject): Streams
    reads s
  {
    Streams(s.feed, s.permeate, s.concentrate)
  }

  /** The reading an entry object and the nested objects it refers to hold
      now, as a value of the value model. */
  function ValueOf(e: EntryObject): LogEntry
    reads e.pressures, e.flows, e.waterQuality, e.waterQuality.conductivity, e.waterQuality.tds
  {
    var p := e.pressures;
    var q := e.waterQuality;
    LogEntry(e.timestamp,
      Pressures(p.feed, p.permeate, p.concentrate, p.dropPerStage, p.dropPerFilter),
      StreamsOf(e.flows),
      WaterQuality(StreamsOf(q.conductivity), StreamsOf(q.tds), q.ph, q.temperature))
  }

  /** The three stream objects of an entry are distinct, as the object
      literal of the initial state makes them. */
  predicate SeparateStreams(e: EntryObject)
  {
    && e.flows != e.waterQuality.conductivity
    && e.flows != e.waterQuality.tds
    && e.waterQuality.conductivity != e.waterQuality.tds
  }

  /** The form's state as the source keeps it. */
  class AliasedLogger {
    var entry: EntryObject
    var logs: seq<EntryObject>

    constructor(now: int)
      ensures entry.pressures.feed == 0.0 && logs == []
      ensures fresh(entry) && fresh(entry.pressures) && fresh(entry.flows)
      ensures fresh(entry.waterQuality) && fresh(entry.waterQuality.conductivity)
      ensures fresh(entry.waterQuality.tds)
      ensures SeparateStreams(entry)
    {
      var p := new PressuresObject();
      var f := new StreamsObject();
      var q := new QualityObject();
      entry := new EntryObject(now, p, f, q);
      logs := [];
    }

    /** `handleInputChange` as written: copy the outer entry, then write the
        reading into the nested object that the old entry, the copy and
        every logged entry share. */
    method HandleInputChange(target: Target, input: Field)
      requires SeparateStreams(entry)
      modifies this, entry.pressures, entry.flows, entry.waterQuality,
               entry.waterQuality.conductivity, entry.waterQuality.tds
      ensures fresh(entry) && logs == old(logs)
      ensures entry.pressures == old(entry.pressures) && entry.flows == old(entry.flows)
      ensures entry.waterQuality == old(entry.waterQuality)
      ensures SeparateStreams(entry)
      ensures ValueOf(entry) == ApplyInput(old(ValueOf(entry)), target, input)
    {
      var v := OrZero(input);
      var newEntry := new EntryObject(entry.timestamp, entry.pressures, entry.flows, entry.waterQuality);
      match target {
        case PressureOf(f) =>
          match f {
            case FeedPressure => newEntry.pressures.feed := v;
            case PermeatePressure => newEntry.pressures.permeate := v;
            case ConcentratePressure => newEntry.pressures.concentrate := v;
            case DropPerStage => newEntry.pressures.dropPerStage := v;
            case DropPerFilter => newEntry.pressures.dropPerFilter := v;
          }
        case FlowOf(st) => newEntry.flows.Put(st, v);
        case ConductivityOf(st) =>
          newEntry.waterQuality.conductivity.Put(st, v);
          newEntry.waterQuality.tds.Put(st, ConductivityToTds(v));
        case Ph => newEntry.waterQuality.ph := v;
        case Temperature => newEntry.waterQuality.temperature := v;
        case Unknown =>
      }
      entry := newEntry;
    }

    /** `handleSubmit` as written: the logged entry is a new outer object
        holding the same nested objects as the current entry. */
    method HandleSubmit(now: int)
      modifies this
      ensures entry == old(entry)
      ensures |logs| == |old(logs)| + 1 && logs[..|old(logs)|] == old(logs)
      ensures fresh(logs[|old(logs)|])
      ensures logs[|old(logs)|].timestamp == now
      ensures logs[|old(logs)|].pressures == entry.pressures
      ensures logs[|old(logs)|].flows == entry.flows
      ensures logs[|old(logs)|].waterQuality == entry.waterQuality
    {
      var logged := new EntryObject(now, entry.pressures, entry.flows, entry.waterQuality);
      logs := logs + [logged];
    }
  }

  /** Submitting a reading with feed pressure 0 and then typing 5 into the
      feed-pressure input changes the logged reading to 5 as well. */
  method SubmitThenEditRewritesLog() returns (loggedBefore: real, loggedAfter: real)
    ensures loggedBefore == 0.0 && loggedAfter == 5.0
  {
    var form := new AliasedLogger(0);
    form.HandleSubmit(1);
    loggedBefore := form.logs[0].pressures.feed;
    form.HandleInputChange(PressureOf(FeedPressure), Num(5.0));
    loggedAfter := form.logs[0].pressures.feed;
  }
}
