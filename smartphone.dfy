/** The smartphone storage page: the analysis it derives on every render
    from the numeric state (used percent, tier at 80 and 90, space to free),
    which alert, bar width and notes the results panel shows, and the
    evaluate and reset handlers that show and hide that panel. */
module SmartphoneStorage {
  import opened FormCommon

  /** A numeric state variable: undefined, or what `Number` gave for the
      non-empty value of an `<input type="number">`. Such an input only ever
      holds the empty string or a finite number, so no infinity is stored. */
  type StoredNumber = x: Option<JsNumber> | !(x.Some? && x.value.Infinity?) witness None

  /** The storage tiers, named as the strings the page compares against. */
  datatype StorageStatus = ok | warning | critical

  /** The share of storage the page recommends keeping free, in percent. */
  const RecommendedFreePercent: real := 10.0

  /** `Number(x) || 0`: undefined and NaN become 0; a finite number is kept
      (0 included, which `|| 0` turns into the same 0). */
  function NumberOrZero(x: StoredNumber): (r: real)
    ensures x == None || x == Some(NaN) ==> r == 0.0
    ensures x.Some? && x.value.Finite? ==> r == x.value.value
  {
    match x
    case None => 0.0
    case Some(NaN) => 0.0
    case Some(Finite(v)) => if v != 0.0 then v else 0.0
  }

  /** The tier of a used percentage. */
  function StorageTier(usedPercent: real): (status: StorageStatus)
    ensures status == critical <==> usedPercent >= 90.0
    ensures status == warning <==> 80.0 <= usedPercent < 90.0
    ensures status == ok <==> usedPercent < 80.0
  {
    if usedPercent >= 90.0 then critical
    else if usedPercent >= 80.0 then warning
    else ok
  }

  /** `Math.max(0, used - total * 0.9)`: how much must go for the used space
      to come down to 90 % of the total, never negative. */
  function SpaceToFreeTo90(total: real, used: real): (gb: real)
    ensures gb >= 0.0 && gb >= used - total * 0.9
    ensures gb == 0.0 || gb == used - total * 0.9
  {
    if used - total * 0.9 > 0.0 then used - total * 0.9 else 0.0
  }

  /** `Math.max(0, used - total * (1 - freePercent / 100))`: how much must go
      for freePercent of the total to be free, never negative. */
  function SpaceToFreeToRecommended(total: real, used: real, freePercent: real): (gb: real)
    ensures gb >= 0.0 && gb >= used - total * (1.0 - freePercent / 100.0)
    ensures gb == 0.0 || gb == used - total * (1.0 - freePercent / 100.0)
  {
    var excess := used - total * (1.0 - freePercent / 100.0);
    if excess > 0.0 then excess else 0.0
  }

  /** The values the page derives from its state on every render. */
  datatype Analysis = Analysis(
    totalNum: real,
    usedNum: real,
    usedPercent: real,
    status: StorageStatus,
    spaceToFreeTo90: real,
    spaceToFreeToRecommended: real)

  /** The derivations for the stored total and used sizes. The two amounts
      to free are never negative and, with 10 % recommended free, always
      equal; an amount to free above zero with a positive total only occurs
      in the critical tier; without a positive total the tier is ok. */
  function Analyze(total: StoredNumber, used: StoredNumber): (a: Analysis)
    ensures a.totalNum == NumberOrZero(total) && a.usedNum == NumberOrZero(used)
    ensures a.totalNum > 0.0 ==> a.usedPercent * a.totalNum == 100.0 * a.usedNum
    ensures a.totalNum <= 0.0 ==> a.usedPercent == 0.0 && a.status == ok
    ensures a.status == critical <==> a.usedPercent >= 90.0
    ensures a.status == warning <==> 80.0 <= a.usedPercent < 90.0
    ensures a.status == ok <==> a.usedPercent < 80.0
    ensures a.spaceToFreeTo90 == SpaceToFreeTo90(a.totalNum, a.usedNum)
    ensures a.spaceToFreeToRecommended == SpaceToFreeToRecommended(a.totalNum, a.usedNum, RecommendedFreePercent)
    ensures a.spaceToFreeTo90 >= 0.0 && a.spaceToFreeToRecommended >= 0.0
    ensures a.spaceToFreeTo90 == a.spaceToFreeToRecommended
    ensures a.totalNum > 0.0 && a.spaceToFreeTo90 > 0.0 ==> a.status == critical
  {
    var totalNum := NumberOrZero(total);
    var usedNum := NumberOrZero(used);
    var usedPercent := Percent(usedNum, totalNum);
    var toFree := SpaceToFreeTo90(totalNum, usedNum);
    OverNinetyIsCritical(totalNum, usedNum);
    Analysis(totalNum, usedNum, usedPercent, StorageTier(usedPercent),
             toFree, SpaceToFreeToRecommended(totalNum, usedNum, RecommendedFreePercent))
  }

  /** More than 90 % of a positive total in use means a used percentage of
      more than 90. */
  lemma OverNinetyIsCritical(total: real, used: real)
    ensures total > 0.0 && used - total * 0.9 > 0.0 ==> Percent(used, total) > 90.0
  {
    if total > 0.0 && used - total * 0.9 > 0.0 {
      assert used / total > 0.9;
    }
  }

  /** The storage figures of the page's placeholders: 115 of 128 GB is
      89.84375 %, a warning, and nothing needs freeing to reach 90 %. */
  lemma PlaceholderReading()
    ensures var a := Analyze(Some(Finite(128.0)), Some(Finite(115.0)));
      a.usedPercent == 89.84375 && a.status == warning && a.spaceToFreeTo90 == 0.0
  {
  }

  /** A total of 0 with 10 GB used: the percentage is 0. */
  lemma ZeroTotal()
    ensures var a := Analyze(Some(Finite(0.0)), Some(Finite(10.0)));
      a.usedPercent == 0.0 && a.status == ok && a.spaceToFreeTo90 == 10.0
  {
  }

  /** The alert shown under the progress bar. */
  datatype StatusAlert =
    | InvalidInput
    | NearlyFull(spaceToFreeTo90: real, spaceToFreeToRecommended: real)
    | ApproachingCapacity(spaceToFreeTo90: real)
    | SufficientSpace
  {
    /** The alert's title as displayed. */
    function Title(): string
    {
      match this
      case InvalidInput => "Invalid Input"
      case NearlyFull(_, _) => "Critical: Storage Nearly Full"
      case ApproachingCapacity(_) => "Warning: Approaching Critical Capacity"
      case SufficientSpace => "OK: Sufficient Free Space"
    }
  }

  /** The choice of alert: the invalid-input alert whenever the total is not
      positive, and otherwise the alert of the tier, carrying the amounts to
      free that it displays. The warning alert always shows 0 GB to free. */
  function ChooseAlert(total: StoredNumber, used: StoredNumber): (alert: StatusAlert)
    ensures alert == InvalidInput <==> NumberOrZero(total) <= 0.0
    ensures alert.NearlyFull? <==> NumberOrZero(total) > 0.0 && Analyze(total, used).status == critical
    ensures alert.ApproachingCapacity? <==> NumberOrZero(total) > 0.0 && Analyze(total, used).status == warning
    ensures alert == SufficientSpace <==> NumberOrZero(total) > 0.0 && Analyze(total, used).status == ok
    ensures alert.NearlyFull? ==>
      alert.spaceToFreeTo90 == Analyze(total, used).spaceToFreeTo90 &&
      alert.spaceToFreeToRecommended == Analyze(total, used).spaceToFreeToRecommended
    ensures alert.NearlyFull? ==> alert.spaceToFreeTo90 == alert.spaceToFreeToRecommended >= 0.0
    ensures alert.ApproachingCapacity? ==> alert.spaceToFreeTo90 == Analyze(total, used).spaceToFreeTo90
    ensures alert.ApproachingCapacity? ==> alert.spaceToFreeTo90 == 0.0
  {
    var a := Analyze(total, used);
    if a.totalNum <= 0.0 then InvalidInput
    else match a.status
      case critical => NearlyFull(a.spaceToFreeTo90, a.spaceToFreeToRecommended)
      case warning => ApproachingCapacity(a.spaceToFreeTo90)
      case ok => SufficientSpace
  }

  /** The width of the progress bar: the used percentage held to 0..100. */
  function BarWidth(usedPercent: real): (w: real)
    ensures 0.0 <= w <= 100.0
    ensures 0.0 <= usedPercent <= 100.0 ==> w == usedPercent
    ensures usedPercent > 100.0 ==> w == 100.0
    ensures usedPercent < 0.0 ==> w == 0.0
  {
    var atLeastZero := if usedPercent > 0.0 then usedPercent else 0.0;
    if atLeastZero < 100.0 then atLeastZero else 100.0
  }

  /** The fixed advice, shown whatever the tier. */
  const Recommendations: seq<string> := [
    "Clear app caches (browsers, social apps) to quickly free space.",
    "Uninstall unused applications and delete old downloads.",
    "Move photos, videos, and attachments to cloud storage or external backup.",
    "Keep at least 10–20% free storage for stable performance."
  ]

  /** The two optional inputs that can add a note. */
  datatype OptionalInput = CacheGb | ResponseMs

  /** What the notes area can show: a note on an optional input with its
      value, or bare text. */
  datatype Rendered = Note(input: OptionalInput, value: real) | BareText(text: string)

  /** JavaScript truthiness of a stored number: defined, not NaN, not 0. */
  predicate Truthy(x: StoredNumber)
  {
    x.Some? && x.value.Finite? && x.value.value != 0.0
  }

  /** A stored number that is defined but falsy: 0 or NaN. */
  predicate DefinedButFalsy(x: StoredNumber)
  {
    x.Some? && !Truthy(x)
  }

  /** `{x && <p>…</p>}` as React renders it: nothing for undefined, the note
      for a truthy number, and a falsy number itself, as text, for 0 or NaN. */
  function RenderGuardAsWritten(x: StoredNumber, input: OptionalInput): (r: seq<Rendered>)
    ensures |r| == (if x == None then 0 else 1)
    ensures Truthy(x) ==> r == [Note(input, x.value.value)]
    ensures DefinedButFalsy(x) ==> r[0].BareText?
    ensures x == Some(Finite(0.0)) ==> r == [BareText("0")]
    ensures x == Some(NaN) ==> r == [BareText("NaN")]
  {
    match x
    case None => []
    case Some(NaN) => [BareText("NaN")]
    case Some(Finite(v)) => if v != 0.0 then [Note(input, v)] else [BareText("0")]
  }

  /** The notes area as the page writes it: the cache guard, then the
      response-time guard. Every defined value fills one slot, in that
      order, and a slot holds bare text exactly when its value is falsy. */
  function NotesAsWritten(cacheGb: StoredNumber, responseMs: StoredNumber): (r: seq<Rendered>)
    ensures |r| == (if cacheGb == None then 0 else 1) + (if responseMs == None then 0 else 1)
    ensures forall i :: 0 <= i < |r| ==>
      (r[i].BareText? <==>
        if i == 0 && cacheGb.Some? then DefinedButFalsy(cacheGb) else DefinedButFalsy(responseMs))
    ensures Truthy(cacheGb) && Truthy(responseMs) ==>
      r == [Note(CacheGb, cacheGb.value.value), Note(ResponseMs, responseMs.value.value)]
  {
    RenderGuardAsWritten(cacheGb, CacheGb) + RenderGuardAsWritten(responseMs, ResponseMs)
  }

  /** A cache size of 0 entered in the optional field puts a stray "0" on
      the page in place of a note. */
  lemma ZeroCacheRendersStrayZero()
    ensures NotesAsWritten(Some(Finite(0.0)), None) == [BareText("0")]
  {
  }

  /** The notes area as intended: one note for each optional input holding a
      non-zero number, cache first, and nothing else. */
  function Notes(cacheGb: StoredNumber, responseMs: StoredNumber): (r: seq<Rendered>)
    ensures |r| == (if Truthy(cacheGb) then 1 else 0) + (if Truthy(responseMs) then 1 else 0)
    ensures forall i :: 0 <= i < |r| ==> r[i].Note? && r[i].value != 0.0
    ensures Truthy(cacheGb) ==> r[0] == Note(CacheGb, cacheGb.value.value)
    ensures Truthy(responseMs) ==> r[|r| - 1] == Note(ResponseMs, responseMs.value.value)
  {
    (if Truthy(cacheGb) then [Note(CacheGb, cacheGb.value.value)] else [])
    + (if Truthy(responseMs) then [Note(ResponseMs, responseMs.value.value)] else [])
  }

  /** The page as written renders the intended notes exactly when no
      optional input holds 0 or NaN. */
  lemma NotesAgreeWithoutFalsyNumbers(cacheGb: StoredNumber, responseMs: StoredNumber)
    ensures NotesAsWritten(cacheGb, responseMs) == Notes(cacheGb, responseMs) <==>
      !DefinedButFalsy(cacheGb) && !DefinedButFalsy(responseMs)
  {
    var written, intended := NotesAsWritten(cacheGb, responseMs), Notes(cacheGb, responseMs);
    if DefinedButFalsy(cacheGb) {
      // the first slot is bare text, which the intended notes never hold
      assert written[0].BareText?;
      if |intended| > 0 {
        assert intended[0].Note?;
        assert written[0] != intended[0];
      }
    } else if DefinedButFalsy(responseMs) {
      // the response slot is written but has no intended counterpart
      assert |written| == |intended| + 1;
    }
  }

  /** Everything the results panel shows once evaluated. */
  datatype Report = Report(
    analysis: Analysis,
    barWidth: real,
    alert: StatusAlert,
    recommendations: seq<string>,
    notes: seq<Rendered>)

  /** The component: the four numeric inputs and whether the results panel
      is shown, each a piece of React state. */
  class SmartphonePage {
    var total: StoredNumber
    var used: StoredNumber
    var responseMs: StoredNumber
    var cacheGb: StoredNumber
    var isEvaluated: bool

    /** The initial render: every input undefined, results hidden. */
    constructor ()
      ensures total == None && used == None && responseMs == None && cacheGb == None
      ensures !isEvaluated
    {
      total, used, responseMs, cacheGb := None, None, None, None;
      isEvaluated := false;
    }

    /** The results panel: absent until evaluated; once shown, computed from
        whatever the inputs hold at this render, with the bar clamped to
        0..100, the alert chosen from the tier, the four fixed recommendations
        and the notes as the page renders them, which are the intended notes
        exactly when no optional input holds 0 or NaN. */
    function Results(): (r: Option<Report>)
      reads this
      ensures r.Some? <==> isEvaluated
      ensures r.Some? ==> r.value.analysis == Analyze(total, used)
      ensures r.Some? ==> r.value.barWidth == BarWidth(r.value.analysis.usedPercent)
      ensures r.Some? ==> 0.0 <= r.value.barWidth <= 100.0
      ensures r.Some? ==> r.value.alert == ChooseAlert(total, used)
      ensures r.Some? ==> r.value.recommendations == Recommendations
      ensures r.Some? ==> r.value.notes == NotesAsWritten(cacheGb, responseMs)
      ensures r.Some? ==>
        (r.value.notes == Notes(cacheGb, responseMs) <==>
          !DefinedButFalsy(cacheGb) && !DefinedButFalsy(responseMs))
    {
      if !isEvaluated then None
      else
        var a := Analyze(total, used);
        NotesAgreeWithoutFalsyNumbers(cacheGb, responseMs);
        Some(Report(a, BarWidth(a.usedPercent), ChooseAlert(total, used),
                    Recommendations, NotesAsWritten(cacheGb, responseMs)))
    }

    /** `evaluate`: show the results; the inputs stay as they are. */
    method Evaluate()
      modifies this
      ensures isEvaluated
      ensures total == old(total) && used == old(used)
      ensures responseMs == old(responseMs) && cacheGb == old(cacheGb)
    {
      isEvaluated := true;
    }

    /** `reset`: every input back to undefined and the results hidden. */
    method Reset()
      modifies this
      ensures total == None && used == None && responseMs == None && cacheGb == None
      ensures !isEvaluated
      ensures Results() == None
    {
      total := None;
      used := None;
      responseMs := None;
      cacheGb := None;
      isEvaluated := false;
    }

    /** An input's onChange handler: undefined for empty text, otherwise the
        number it parses to. The shown results follow the new value at the
        next render; whether they are shown does not change. */
    method ChangeTotal(input: TextField)
      requires input.text == [] || !input.number.Infinity?
      modifies this
      ensures total == StoredValue(input)
      ensures used == old(used) && responseMs == old(responseMs) && cacheGb == old(cacheGb)
      ensures isEvaluated == old(isEvaluated)
    {
      total := StoredValue(input);
    }

    /** The used-storage input's onChange handler. */
    method ChangeUsed(input: TextField)
      requires input.text == [] || !input.number.Infinity?
      modifies this
      ensures used == StoredValue(input)
      ensures total == old(total) && responseMs == old(responseMs) && cacheGb == old(cacheGb)
      ensures isEvaluated == old(isEvaluated)
    {
      used := StoredValue(input);
    }

    /** The response-time input's onChange handler. */
    method ChangeResponseMs(input: TextField)
      requires input.text == [] || !input.number.Infinity?
      modifies this
      ensures responseMs == StoredValue(input)
      ensures total == old(total) && used == old(used) && cacheGb == old(cacheGb)
      ensures isEvaluated == old(isEvaluated)
    {
      responseMs := StoredValue(input);
    }

    /** The cache-size input's onChange handler. */
    method ChangeCacheGb(input: TextField)
      requires input.text == [] || !input.number.Infinity?
      modifies this
      ensures cacheGb == StoredValue(input)
      ensures total == old(total) && used == old(used) && responseMs == old(responseMs)
      ensures isEvaluated == old(isEvaluated)
    {
      cacheGb := StoredValue(input);
    }
  }

  /** `e.target.value === "" ? undefined : Number(e.target.value)`. */
  function StoredValue(input: TextField): (v: StoredNumber)
    requires input.text == [] || !input.number.Infinity?
    ensures v == None <==> input.text == []
    ensures v.Some? ==> v.value == input.number
  {
    if input.text == [] then None else Some(input.number)
  }
}
