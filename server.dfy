/** The server cooling page: a required-field check on the two raw texts,
    then a status that starts GOOD and only escalates, driven by the CPU
    temperature and the rounded fan speed, and up to four messages. */
module ServerCooling {
  import opened FormCommon

  /** The two inputs of the form. */
  datatype Field = CpuTemp | FanSpeed
  {
    /** The error-map key: the name of the component's state variable. */
    function Key(): string
    {
      match this
      case CpuTemp => "cpuTemp"
      case FanSpeed => "fanSpeed"
    }

    /** The message shown under the input when it is left blank. */
    function RequiredMessage(): string
    {
      match this
      case CpuTemp => "Current CPU temperature is required."
      case FanSpeed => "Current fan speed is required."
    }
  }

  /** The advisory messages the evaluator can push. */
  datatype Advice = Overheating | AboveOptimal | FanSlow | Optimal | SustainedHeatRisk
  {
    /** The exact text shown in the message list. */
    function Text(): string
    {
      match this
      case Overheating =>
        "High temperature detected — immediate maintenance recommended: clean fans/filters and replace thermal paste."
      case AboveOptimal =>
        "CPU temperature is above optimal (>=75°C). Consider cleaning the case and checking thermal paste."
      case FanSlow =>
        "Fan speed is lower than expected (<1500 RPM). Fan cleaning or bearing check recommended."
      case Optimal =>
        "Readings are within optimal ranges. Schedule routine cleaning every 6-12 months."
      case SustainedHeatRisk =>
        "Risk: sustained temperatures >=80°C increase throttling and hardware wear. Perform maintenance soon."
    }
  }

  /** Distinct inputs have distinct error keys, so a map keyed by `Field`
      stands for the component's string-keyed error record. */
  lemma KeysDistinct()
    ensures forall f: Field, g: Field :: f.Key() == g.Key() ==> f == g
  {
  }

  /** Where a message may stand in the list: the temperature tier message,
      then the fan message, then the optimal-range message, then the risk
      message. */
  function Rank(a: Advice): int
  {
    match a
    case Overheating => 0
    case AboveOptimal => 1
    case FanSlow => 2
    case Optimal => 3
    case SustainedHeatRisk => 4
  }

  /** The temperature condition for CRITICAL, on the rounded fan speed. */
  predicate Overheated(cpu: real, fan: int)
  {
    cpu >= 85.0 || (cpu >= 80.0 && fan < 1200)
  }

  /** When each message belongs in the list, stated on the CPU temperature
      and the fan reading before rounding: `Math.round(fan) < 1200` holds
      exactly below 1199.5, and `Math.round(fan) < 1500` below 1499.5. */
  predicate Applies(a: Advice, cpu: real, fan: real)
  {
    match a
    case Overheating => cpu >= 85.0 || (cpu >= 80.0 && fan < 1199.5)
    case AboveOptimal => 75.0 <= cpu < 85.0 && !(cpu >= 80.0 && fan < 1199.5)
    case FanSlow => fan < 1499.5
    case Optimal => cpu < 75.0 && fan >= 1499.5
    case SustainedHeatRisk => cpu >= 80.0
  }

  /** A completed evaluation: the status and the messages. */
  datatype Evaluation = Evaluation(status: Status, messages: seq<Advice>)

  /** What one submission produces: the required-field errors or an
      evaluation. */
  datatype Outcome = Rejected(errors: map<Field, string>) | Evaluated(evaluation: Evaluation)

  /** The required-field errors: an entry for each blank field, keyed by that
      field and holding its own literal message, and no other entries. */
  function RequiredErrors(cpuTemp: string, fanSpeed: string): (errors: map<Field, string>)
    ensures CpuTemp in errors <==> IsMissing(cpuTemp)
    ensures FanSpeed in errors <==> IsMissing(fanSpeed)
    ensures forall f: Field :: f in errors ==> errors[f] == f.RequiredMessage()
    ensures errors == map[] <==> !IsMissing(cpuTemp) && !IsMissing(fanSpeed)
  {
    var withCpu := if IsMissing(cpuTemp) then map[CpuTemp := CpuTemp.RequiredMessage()] else map[];
    if IsMissing(fanSpeed) then withCpu[FanSpeed := FanSpeed.RequiredMessage()] else withCpu
  }

  /** The status after the escalation steps: set by the temperature check,
      then raised to WARNING by a slow fan unless already CRITICAL. As a
      whole: CRITICAL exactly on overheating, GOOD exactly when the CPU is
      below 75 and the fan at 1500 or more, WARNING otherwise. */
  function Classify(cpu: real, fan: int): (status: Status)
    ensures status == CRITICAL <==> cpu >= 85.0 || (cpu >= 80.0 && fan < 1200)
    ensures status == GOOD <==> cpu < 75.0 && fan >= 1500
    ensures status == WARNING <==> !(cpu >= 85.0 || (cpu >= 80.0 && fan < 1200)) && (cpu >= 75.0 || fan < 1500)
  {
    var afterTemperature := if Overheated(cpu, fan) then CRITICAL else if cpu >= 75.0 then WARNING else GOOD;
    if fan < 1500 && afterTemperature != CRITICAL then WARNING else afterTemperature
  }

  /** The evaluation of parsed readings, the fan speed rounded first. The
      list holds exactly the applicable messages in rank order; it is never
      empty and has at most three entries; the optimal-range message appears
      exactly when the status is GOOD and then stands alone; the risk message
      appears exactly from 80 degrees and is then last. */
  function Assess(cpu: real, fanReading: real): (r: Evaluation)
    ensures r.status == CRITICAL <==> cpu >= 85.0 || (cpu >= 80.0 && Round(fanReading) < 1200)
    ensures r.status == GOOD <==> cpu < 75.0 && Round(fanReading) >= 1500
    ensures Round(fanReading) < 1500 ==> r.status != GOOD
    ensures forall a :: a in r.messages <==> Applies(a, cpu, fanReading)
    ensures StrictlyIncreasing(r.messages, Rank)
    ensures 1 <= |r.messages| <= 3
    ensures Overheating in r.messages <==> r.status == CRITICAL
    ensures Optimal in r.messages <==> r.status == GOOD
    ensures Optimal in r.messages ==> r.messages == [Optimal]
    ensures SustainedHeatRisk in r.messages <==> cpu >= 80.0
    ensures SustainedHeatRisk in r.messages ==> r.messages[|r.messages| - 1] == SustainedHeatRisk
  {
    var fan := Round(fanReading);
    var tier := if Overheated(cpu, fan) then [Overheating] else if cpu >= 75.0 then [AboveOptimal] else [];
    var fanPart := if fan < 1500 then [FanSlow] else [];
    var optimal := if cpu < 75.0 && fan >= 1500 then [Optimal] else [];
    var risk := if cpu >= 80.0 then [SustainedHeatRisk] else [];
    Evaluation(Classify(cpu, fan), tier + fanPart + optimal + risk)
  }

  /** The ordering and the membership stated by Assess pin its message list
      down completely: any list with both properties is that list. */
  lemma MessagesDetermined(cpu: real, fanReading: real, ms: seq<Advice>)
    requires StrictlyIncreasing(ms, Rank)
    requires forall a :: a in ms <==> Applies(a, cpu, fanReading)
    ensures ms == Assess(cpu, fanReading).messages
  {
    SortedUnique(ms, Assess(cpu, fanReading).messages, Rank);
  }

  /** `handleSubmit` as a function of the two inputs: rejected, with exactly
      the required-field errors, when either text is blank; otherwise
      evaluated on the parsed numbers, unparsable text counting as 0. */
  function Submit(cpuTemp: TextField, fanSpeed: TextField): (o: Outcome)
    ensures o.Rejected? <==> IsMissing(cpuTemp.text) || IsMissing(fanSpeed.text)
    ensures o.Rejected? ==> o.errors != map[] && o.errors == RequiredErrors(cpuTemp.text, fanSpeed.text)
    ensures o.Evaluated? ==> o.evaluation == Assess(ParseNumber(cpuTemp.number), ParseNumber(fanSpeed.number))
  {
    var errors := RequiredErrors(cpuTemp.text, fanSpeed.text);
    if errors != map[] then Rejected(errors)
    else Evaluated(Assess(ParseNumber(cpuTemp.number), ParseNumber(fanSpeed.number)))
  }

  /** 82 degrees with the fan at 1100 RPM: CRITICAL, with the maintenance,
      fan and risk messages and without the optimal-range one. */
  lemma HotWithSlowFan()
    ensures Assess(82.0, 1100.0) == Evaluation(CRITICAL, [Overheating, FanSlow, SustainedHeatRisk])
  {
    assert Round(1100.0) == 1100;
  }

  /** The boundaries are inclusive where the page says so: 75 degrees is
      already a WARNING and 85 already CRITICAL, even with a fast fan; a fan
      at 1499.5 RPM rounds to 1500 and counts as fast enough. */
  lemma ThresholdsInclusive()
    ensures Assess(75.0, 2000.0).status == WARNING
    ensures Assess(85.0, 2000.0).status == CRITICAL
    ensures Assess(60.0, 1499.5) == Evaluation(GOOD, [Optimal])
  {
    assert Round(2000.0) == 2000;
    assert Round(1499.5) == 1500;
  }

  /** The validation half of `handleSubmit`: starting from an empty map,
      add each blank field's message under its key. */
  method CollectRequiredErrors(cpuTemp: string, fanSpeed: string) returns (newErrors: map<Field, string>)
    ensures newErrors == RequiredErrors(cpuTemp, fanSpeed)
  {
    newErrors := map[];
    if IsMissing(cpuTemp) {
      newErrors := newErrors[CpuTemp := CpuTemp.RequiredMessage()];
    }
    if IsMissing(fanSpeed) {
      newErrors := newErrors[FanSpeed := FanSpeed.RequiredMessage()];
    }
  }

  /** The computing half of `handleSubmit`: round the fan speed, set the
      status from the temperature, escalate it for a slow fan, and push the
      messages over four sequential checks. */
  method Evaluate(cpu: real, fanReading: real) returns (computedStatus: Status, out: seq<Advice>)
    ensures Evaluation(computedStatus, out) == Assess(cpu, fanReading)
  {
    var fan := Round(fanReading);
    out := [];
    computedStatus := GOOD;

    if cpu >= 85.0 || (cpu >= 80.0 && fan < 1200) {
      computedStatus := CRITICAL;
      out := out + [Overheating];
    } else if cpu >= 75.0 {
      computedStatus := WARNING;
      out := out + [AboveOptimal];
    }
    if fan < 1500 {
      if computedStatus != CRITICAL {
        computedStatus := WARNING;
      }
      out := out + [FanSlow];
    }
    if cpu < 75.0 && fan >= 1500 {
      out := out + [Optimal];
    }
    if cpu >= 80.0 {
      out := out + [SustainedHeatRisk];
    }
  }

  /** The component: the two input texts, the displayed result and the
      per-field error map, each a piece of React state. */
  class ServerPage {
    var cpuTemp: TextField
    var fanSpeed: TextField
    var status: Option<Status>
    var messages: seq<Advice>
    var errors: map<Field, string>

    /** What holds between events: every error entry is its field's own
        required message; errors and a result are never shown together; a
        result has one to three messages. */
    ghost predicate Valid()
      reads this
    {
      && (forall f :: f in errors ==> errors[f] == f.RequiredMessage())
      && (status.None? ==> messages == [])
      && (status.Some? ==> 1 <= |messages| <= 3)
      && (errors != map[] ==> status.None?)
    }

    /** The initial render: empty inputs, no result, no errors. */
    constructor ()
      ensures Valid()
      ensures cpuTemp == fanSpeed == EmptyField
      ensures status == None && messages == [] && errors == map[]
    {
      cpuTemp, fanSpeed := EmptyField, EmptyField;
      status, messages, errors := None, [], map[];
    }

    /** `handleSubmit`: on a blank field show the errors and clear the
        result; otherwise clear the errors and show the evaluation. */
    method HandleSubmit()
      requires Valid()
      modifies this
      ensures Valid()
      ensures cpuTemp == old(cpuTemp) && fanSpeed == old(fanSpeed)
      ensures match Submit(cpuTemp, fanSpeed)
        case Rejected(e) => errors == e && status == None && messages == []
        case Evaluated(ev) => errors == map[] && status == Some(ev.status) && messages == ev.messages
    {
      var newErrors := CollectRequiredErrors(cpuTemp.text, fanSpeed.text);
      if |newErrors| > 0 {
        errors := newErrors;
        messages := [];
        status := None;
        return;
      }

      errors := map[];

      var cpu := ParseNumber(cpuTemp.number);
      var fan := ParseNumber(fanSpeed.number);
      var computedStatus, out := Evaluate(cpu, fan);

      status := Some(computedStatus);
      messages := out;
    }

    /** An input's onChange handler: store the new text and delete that
        field's error entry, leaving every other entry and the shown result
        as they were. */
    method Change(f: Field, value: TextField)
      requires Valid()
      modifies this
      ensures Valid()
      ensures errors == WithoutKey(old(errors), f)
      ensures cpuTemp == (if f == CpuTemp then value else old(cpuTemp))
      ensures fanSpeed == (if f == FanSpeed then value else old(fanSpeed))
      ensures status == old(status) && messages == old(messages)
    {
      match f {
        case CpuTemp => cpuTemp := value;
        case FanSpeed => fanSpeed := value;
      }
      errors := WithoutKey(errors, f);
    }
  }
}
