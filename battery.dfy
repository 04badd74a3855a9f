/** The battery state-of-health form: a required-field check on the four raw
    texts, then SoH = current / design * 100, a severity tier at 70 and 85,
    and up to two context messages on cycle count and temperature. */
module BatteryHealth {
  import opened FormCommon

  /** The four inputs of the form. */
  datatype Field = DesignCapacity | CurrentCapacity | Cycles | AvgTemp
  {
    /** The error-map key: the name of the component's state variable. */
    function Key(): string
    {
      match this
      case DesignCapacity => "designCapacity"
      case CurrentCapacity => "currentCapacity"
      case Cycles => "cycles"
      case AvgTemp => "avgTemp"
    }

    /** The message shown under the input when it is left blank. */
    function RequiredMessage(): string
    {
      match this
      case DesignCapacity => "Initial design capacity is required."
      case CurrentCapacity => "Current capacity is required."
      case Cycles => "Number of cycles is required."
      case AvgTemp => "Average temperature is required."
    }
  }

  /** The advisory messages the evaluator can push. */
  datatype Advice = Degraded | Aging | GoodCondition | CyclesExceeded | HighTemperature
  {
    /** The exact text shown in the message list. */
    function Text(): string
    {
      match this
      case Degraded => "Capacity is significantly degraded. Consider replacing the battery."
      case Aging => "Battery is aging. Consider power-saving mode."
      case GoodCondition => "Battery is in good condition."
      case CyclesExceeded => "The number of cycles has exceeded the typical lifespan."
      case HighTemperature => "Warning: High temperature damages the battery. Clean the ventilation."
    }
  }

  /** Distinct inputs have distinct error keys, so a map keyed by `Field`
      stands for the component's string-keyed error record. */
  lemma KeysDistinct()
    ensures forall f: Field, g: Field :: f.Key() == g.Key() ==> f == g
  {
  }

  /** Distinct messages have distinct texts, so a list of `Advice` stands
      for the list of strings the component stores and renders. */
  lemma TextsDistinct()
    ensures forall a: Advice, b: Advice :: a.Text() == b.Text() ==> a == b
  {
  }

  /** Where a message may stand in the list: a tier message first (at most one
      of the three ever applies), then the cycle message, then the
      temperature message. */
  function Rank(a: Advice): int
  {
    match a
    case Degraded => 0
    case Aging => 1
    case GoodCondition => 2
    case CyclesExceeded => 3
    case HighTemperature => 4
  }

  /** When each message belongs in the list, stated on the state of health
      and the parsed cycle and temperature readings. `Math.round(cycles) > 500`
      holds exactly from 500.5 upwards. */
  predicate Applies(a: Advice, soh: real, cycles: real, temp: real)
  {
    match a
    case Degraded => soh < 70.0
    case Aging => 70.0 <= soh < 85.0
    case GoodCondition => 85.0 <= soh
    case CyclesExceeded => cycles >= 500.5
    case HighTemperature => temp > 35.0
  }

  /** A completed evaluation: the unrounded SoH, its tier and the messages. */
  datatype Evaluation = Evaluation(soh: real, status: Status, messages: seq<Advice>)

  /** What one submission produces: the required-field errors, or the SoH as
      displayed (one decimal place) together with the evaluation. */
  datatype Outcome =
    | Rejected(errors: map<Field, string>)
    | Evaluated(displayedSoh: real, evaluation: Evaluation)

  /** The required-field errors: an entry for each blank field, keyed by that
      field and holding its own literal message, and no other entries. */
  function RequiredErrors(design: string, current: string, cycles: string, avgTemp: string)
    : (errors: map<Field, string>)
    ensures DesignCapacity in errors <==> IsMissing(design)
    ensures CurrentCapacity in errors <==> IsMissing(current)
    ensures Cycles in errors <==> IsMissing(cycles)
    ensures AvgTemp in errors <==> IsMissing(avgTemp)
    ensures forall f: Field :: f in errors ==> errors[f] == f.RequiredMessage()
    ensures errors == map[] <==> !IsMissing(design) && !IsMissing(current) && !IsMissing(cycles) && !IsMissing(avgTemp)
  {
    var withDesign := if IsMissing(design) then map[DesignCapacity := DesignCapacity.RequiredMessage()] else map[];
    var withCurrent := if IsMissing(current) then withDesign[CurrentCapacity := CurrentCapacity.RequiredMessage()] else withDesign;
    var withCycles := if IsMissing(cycles) then withCurrent[Cycles := Cycles.RequiredMessage()] else withCurrent;
    if IsMissing(avgTemp) then withCycles[AvgTemp := AvgTemp.RequiredMessage()] else withCycles
  }

  /** The severity tier of a state of health. */
  function Tier(soh: real): (status: Status)
    ensures status == CRITICAL <==> soh < 70.0
    ensures status == WARNING <==> 70.0 <= soh < 85.0
    ensures status == GOOD <==> 85.0 <= soh
  {
    if soh < 70.0 then CRITICAL else if soh < 85.0 then WARNING else GOOD
  }

  /** The one tier message of each tier. */
  function TierAdvice(status: Status): Advice
  {
    match status
    case CRITICAL => Degraded
    case WARNING => Aging
    case GOOD => GoodCondition
  }

  /** The evaluation of parsed readings. The status depends on the SoH alone;
      the list holds exactly the applicable messages, one tier message first,
      then the cycle and temperature messages, so it has one to three entries. */
  function Assess(design: real, current: real, cycles: real, temp: real): (r: Evaluation)
    ensures r.soh == Percent(current, design)
    ensures r.status == CRITICAL <==> r.soh < 70.0
    ensures r.status == WARNING <==> 70.0 <= r.soh < 85.0
    ensures r.status == GOOD <==> 85.0 <= r.soh
    ensures forall a :: a in r.messages <==> Applies(a, r.soh, cycles, temp)
    ensures StrictlyIncreasing(r.messages, Rank)
    ensures 1 <= |r.messages| <= 3 && Rank(r.messages[0]) <= 2
    ensures forall i :: 0 < i < |r.messages| ==> Rank(r.messages[i]) > 2
  {
    var soh := Percent(current, design);
    var status := Tier(soh);
    var tiered := [TierAdvice(status)];
    var withCycles := if Round(cycles) > 500 then tiered + [CyclesExceeded] else tiered;
    var all := if temp > 35.0 then withCycles + [HighTemperature] else withCycles;
    Evaluation(soh, status, all)
  }

  /** The ordering and the membership stated by Assess pin its message list
      down completely: any list with both properties is that list. */
  lemma MessagesDetermined(design: real, current: real, cycles: real, temp: real, ms: seq<Advice>)
    requires StrictlyIncreasing(ms, Rank)
    requires forall a :: a in ms <==> Applies(a, Percent(current, design), cycles, temp)
    ensures ms == Assess(design, current, cycles, temp).messages
  {
    SortedUnique(ms, Assess(design, current, cycles, temp).messages, Rank);
  }

  /** `handleSubmit` as a function of the four inputs: rejected, with exactly
      the required-field errors, when any text is blank; otherwise evaluated
      on the parsed numbers, unparsable text counting as 0. */
  function Submit(design: TextField, current: TextField, cycles: TextField, avgTemp: TextField)
    : (o: Outcome)
    ensures o.Rejected? <==>
      IsMissing(design.text) || IsMissing(current.text) || IsMissing(cycles.text) || IsMissing(avgTemp.text)
    ensures o.Rejected? ==> o.errors != map[] && o.errors == RequiredErrors(design.text, current.text, cycles.text, avgTemp.text)
    ensures o.Evaluated? ==>
      && o.evaluation == Assess(ParseNumber(design.number), ParseNumber(current.number),
                                ParseNumber(cycles.number), ParseNumber(avgTemp.number))
      && o.displayedSoh == ToFixedOne(o.evaluation.soh)
  {
    var errors := RequiredErrors(design.text, current.text, cycles.text, avgTemp.text);
    if errors != map[] then Rejected(errors)
    else
      var evaluation := Assess(ParseNumber(design.number), ParseNumber(current.number),
                               ParseNumber(cycles.number), ParseNumber(avgTemp.number));
      Evaluated(ToFixedOne(evaluation.soh), evaluation)
  }

  /** A text whose first character is not whitespace is present. */
  lemma PresentWhenFirstIsNotBlank(t: TextField)
    requires t.text != [] && !IsJsWhitespace(t.text[0])
    ensures !IsMissing(t.text)
  {
  }

  /** The reference reading from the form's placeholders: 3200 of 5000 mAh
      is 64 %, critical, and 40 degrees adds the temperature message while
      450 cycles adds nothing. */
  lemma PlaceholderReading()
    ensures var o := Submit(TextField("5000", Finite(5000.0)), TextField("3200", Finite(3200.0)),
                            TextField("450", Finite(450.0)), TextField("40", Finite(40.0)));
      o == Evaluated(64.0, Evaluation(64.0, CRITICAL, [Degraded, HighTemperature]))
  {
    PresentWhenFirstIsNotBlank(TextField("5000", Finite(5000.0)));
    PresentWhenFirstIsNotBlank(TextField("3200", Finite(3200.0)));
    PresentWhenFirstIsNotBlank(TextField("450", Finite(450.0)));
    PresentWhenFirstIsNotBlank(TextField("40", Finite(40.0)));
    assert Percent(3200.0, 5000.0) == 64.0;
    assert Round(450.0) == 450;
    assert Assess(5000.0, 3200.0, 450.0, 40.0) == Evaluation(64.0, CRITICAL, [Degraded, HighTemperature]);
    assert Round(640.0) == 640;
    assert ToFixedOne(64.0) == 64.0;
  }

  /** A blank cycle count alone yields exactly its own error. */
  lemma BlankCyclesRejected()
    ensures Submit(TextField("5000", Finite(5000.0)), TextField("3200", Finite(3200.0)),
                   TextField(" ", Finite(0.0)), TextField("40", Finite(40.0)))
         == Rejected(map[Cycles := "Number of cycles is required."])
  {
    PresentWhenFirstIsNotBlank(TextField("5000", Finite(5000.0)));
    PresentWhenFirstIsNotBlank(TextField("3200", Finite(3200.0)));
    PresentWhenFirstIsNotBlank(TextField("40", Finite(40.0)));
    assert IsJsWhitespace(" "[0]);
    assert IsMissing(" ");
    var errors := RequiredErrors("5000", "3200", " ", "40");
    assert errors.Keys == {Cycles};
    assert errors == map[Cycles := "Number of cycles is required."];
  }

  /** The handler on its own: non-blank text that does not parse passes the
      presence check and is evaluated as 0, so an unreadable design capacity
      gives a SoH of 0. (A browser's number input reports such text as the
      empty string, which the presence check rejects.) */
  lemma UnparsableDesignCountsAsZero(current: TextField, cycles: TextField, avgTemp: TextField)
    requires !IsMissing(current.text) && !IsMissing(cycles.text) && !IsMissing(avgTemp.text)
    ensures var o := Submit(TextField("abc", NaN), current, cycles, avgTemp);
      o.Evaluated? && o.evaluation.soh == 0.0 && o.evaluation.status == CRITICAL
  {
    PresentWhenFirstIsNotBlank(TextField("abc", NaN));
  }

  /** The status compares the unrounded SoH while the page shows it rounded:
      69.96 % is shown as 70.0 beside CRITICAL, although 70 is a WARNING. */
  lemma ShownSohCanReachThresholdOfHigherTier()
    ensures var o := Submit(TextField("10000", Finite(10000.0)), TextField("6996", Finite(6996.0)),
                            TextField("100", Finite(100.0)), TextField("25", Finite(25.0)));
      o.Evaluated? && o.displayedSoh == 70.0 && o.evaluation.status == CRITICAL
  {
    PresentWhenFirstIsNotBlank(TextField("10000", Finite(10000.0)));
    PresentWhenFirstIsNotBlank(TextField("6996", Finite(6996.0)));
    PresentWhenFirstIsNotBlank(TextField("100", Finite(100.0)));
    PresentWhenFirstIsNotBlank(TextField("25", Finite(25.0)));
    assert Percent(6996.0, 10000.0) == 69.96;
    assert Round(699.6) == 700;
    assert ToFixedOne(69.96) == 70.0;
  }

  /** The validation half of `handleSubmit`: starting from an empty map,
      add each blank field's message under its key, one field after another. */
  method CollectRequiredErrors(design: string, current: string, cycles: string, avgTemp: string)
    returns (newErrors: map<Field, string>)
    ensures newErrors == RequiredErrors(design, current, cycles, avgTemp)
  {
    newErrors := map[];
    if IsMissing(design) {
      newErrors := newErrors[DesignCapacity := DesignCapacity.RequiredMessage()];
    }
    if IsMissing(current) {
      newErrors := newErrors[CurrentCapacity := CurrentCapacity.RequiredMessage()];
    }
    if IsMissing(cycles) {
      newErrors := newErrors[Cycles := Cycles.RequiredMessage()];
    }
    if IsMissing(avgTemp) {
      newErrors := newErrors[AvgTemp := AvgTemp.RequiredMessage()];
    }
  }

  /** The computing half of `handleSubmit`: SoH, then the tier chosen by
      reassigning the status, then the messages pushed one by one. */
  method Evaluate(design: real, current: real, cycles: real, temp: real)
    returns (computedSoh: real, computedStatus: Status, outMessages: seq<Advice>)
    ensures Evaluation(computedSoh, computedStatus, outMessages) == Assess(design, current, cycles, temp)
  {
    var cyc := Round(cycles);
    computedSoh := if design > 0.0 then (current / design) * 100.0 else 0.0;

    outMessages := [];
    computedStatus := GOOD;

    if computedSoh < 70.0 {
      computedStatus := CRITICAL;
      outMessages := outMessages + [Degraded];
    } else if computedSoh < 85.0 {
      computedStatus := WARNING;
      outMessages := outMessages + [Aging];
    } else {
      computedStatus := GOOD;
      outMessages := outMessages + [GoodCondition];
    }

    if cyc > 500 {
      outMessages := outMessages + [CyclesExceeded];
    }

    if temp > 35.0 {
      outMessages := outMessages + [HighTemperature];
    }
  }

  /** The component: the four input texts, the displayed result and the
      per-field error map, each a piece of React state. */
  class BatteryForm {
    var designCapacity: TextField
    var currentCapacity: TextField
    var cycles: TextField
    var avgTemp: TextField
    var soh: Option<real>
    var status: Option<Status>
    var messages: seq<Advice>
    var errors: map<Field, string>

    /** What holds between events: every error entry is some field's own
        required message; errors and a result are never shown together; a
        result has a SoH, a status and one to three messages. */
    ghost predicate Valid()
      reads this
    {
      && (forall f :: f in errors ==> errors[f] == f.RequiredMessage())
      && (soh.Some? <==> status.Some?)
      && (status.None? ==> messages == [])
      && (status.Some? ==> 1 <= |messages| <= 3)
      && (errors != map[] ==> status.None?)
    }

    /** The initial render: empty inputs, no result, no errors. */
    constructor ()
      ensures Valid()
      ensures designCapacity == currentCapacity == cycles == avgTemp == EmptyField
      ensures soh == None && status == None && messages == [] && errors == map[]
    {
      designCapacity, currentCapacity, cycles, avgTemp := EmptyField, EmptyField, EmptyField, EmptyField;
      soh, status, messages, errors := None, None, [], map[];
    }

    /** `handleSubmit`: collect the required-field errors key by key; on any,
        show them and clear the result; otherwise clear the errors, classify
        the SoH and push the tier, cycle and temperature messages in turn. */
    method HandleSubmit()
      requires Valid()
      modifies this
      ensures Valid()
      ensures designCapacity == old(designCapacity) && currentCapacity == old(currentCapacity)
      ensures cycles == old(cycles) && avgTemp == old(avgTemp)
      ensures match Submit(designCapacity, currentCapacity, cycles, avgTemp)
        case Rejected(e) => errors == e && soh == None && status == None && messages == []
        case Evaluated(shown, ev) =>
          errors == map[] && soh == Some(shown) && status == Some(ev.status) && messages == ev.messages
    {
      var newErrors := CollectRequiredErrors(designCapacity.text, currentCapacity.text, cycles.text, avgTemp.text);
      if |newErrors| > 0 {
        errors := newErrors;
        soh, status, messages := None, None, [];
        return;
      }

      errors := map[];

      var design := ParseNumber(designCapacity.number);
      var current := ParseNumber(currentCapacity.number);
      var cyc := ParseNumber(cycles.number);
      var temp := ParseNumber(avgTemp.number);
      var computedSoh, computedStatus, outMessages := Evaluate(design, current, cyc, temp);

      soh := Some(ToFixedOne(computedSoh));
      status := Some(computedStatus);
      messages := outMessages;
    }

    /** An input's onChange handler: store the new text and delete that
        field's error entry, leaving every other entry and the shown result
        as they were. */
    method Change(f: Field, value: TextField)
      requires Valid()
      modifies this
      ensures Valid()
      ensures errors == WithoutKey(old(errors), f)
      ensures designCapacity == (if f == DesignCapacity then value else old(designCapacity))
      ensures currentCapacity == (if f == CurrentCapacity then value else old(currentCapacity))
      ensures cycles == (if f == Cycles then value else old(cycles))
      ensures avgTemp == (if f == AvgTemp then value else old(avgTemp))
      ensures soh == old(soh) && status == old(status) && messages == old(messages)
    {
      match f {
        case DesignCapacity => designCapacity := value;
        case CurrentCapacity => currentCapacity := value;
        case Cycles => cycles := value;
        case AvgTemp => avgTemp := value;
      }
      errors := WithoutKey(errors, f);
    }
  }
}
