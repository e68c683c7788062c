/** The search-input side of the editor (`initEditor` in dist/main/editor/editor.js).

    The DOM is abstracted away: an integer input is its id, its validity and its value, a body
    selector is the selected body's id and its attractor's id, and the results of the workers
    (the sequence generator and the trajectory solver) and of `FlybySequence.fromString` are
    parameters. What remains are the decision rules that guard the two searches and the state
    the two handlers leave behind. */
module Editor {
  import opened Wrappers
  import Decimal

  /** What the editor's handlers can catch. */
  datatype Thrown =
    | Message(text: string)
      // a string thrown by the editor's checks, by a worker or by `FlybySequence.fromString`
    | FieldInvalid(fieldId: string)
      // the failure of `IntegerInput.assertValidity` on the input with that id
    | NoAttractor(bodyId: int)
      // reading `body.attractor.id` of the sun, which has no attractor
    | NoOriginBody
      // reading the first body of a sequence that is absent (nothing selected) or empty

  const NotSameAttractor: string := "Origin and destination bodies must orbit the same body."
  const SameBodies: string := "Same origin and destination bodies."
  const InvertedWindow: string := "Departure date range end must be greater than the start date."
  const WorkerCancelled: string := "WORKER CANCELLED"
  const FinderCancelled: string := "TRAJECTORY FINDER CANCELLED"

  datatype IntegerField = IntegerField(id: string, valid: bool, value: int)

  /** A body chosen in a body selector; the sun has no attractor. */
  datatype SelectedBody = SelectedBody(id: int, attractorId: Option<int>)

  /** The inputs of the sequence search form. */
  datatype SequenceForm = SequenceForm(
    origin: SelectedBody,
    destination: SelectedBody,
    maxSwingBys: IntegerField,
    maxResonant: IntegerField,
    maxBackLegs: IntegerField,
    maxBackSpacing: IntegerField)

  datatype SequenceParameters = SequenceParameters(
    departureId: int,
    destinationId: int,
    maxSwingBys: int,
    maxResonant: int,
    maxBackLegs: int,
    maxBackSpacing: int)

  /** A body of a flyby sequence, with the two sizes the altitude range needs (metres). */
  datatype SequenceBody = SequenceBody(id: int, radius: real, soi: real)

  datatype FlybySequence = FlybySequence(bodies: seq<SequenceBody>)

  /** What the trajectory solver is asked: a sequence, a departure window and an altitude (m). */
  datatype SearchRequest = SearchRequest(
    sequence: FlybySequence,
    startDate: real,
    endDate: real,
    altitude: int)

  // ----- The sequence search -----

  /** The four integer inputs, in the order `assertSequenceInputs` checks them. */
  function CheckedFields(form: SequenceForm): seq<IntegerField> {
    [form.maxBackSpacing, form.maxSwingBys, form.maxResonant, form.maxBackLegs]
  }

  /** `assertSequenceInputs`: None when the form may be searched, else what it throws. */
  function AssertSequenceInputs(form: SequenceForm): (r: Option<Thrown>)
    ensures r.None? <==>
              && form.maxBackSpacing.valid && form.maxSwingBys.valid
              && form.maxResonant.valid && form.maxBackLegs.valid
              && form.origin.attractorId.Some?
              && form.origin.attractorId == form.destination.attractorId
              && form.origin.id != form.destination.id
  {
    if !form.maxBackSpacing.valid then Some(FieldInvalid(form.maxBackSpacing.id))
    else if !form.maxSwingBys.valid then Some(FieldInvalid(form.maxSwingBys.id))
    else if !form.maxResonant.valid then Some(FieldInvalid(form.maxResonant.id))
    else if !form.maxBackLegs.valid then Some(FieldInvalid(form.maxBackLegs.id))
    else if form.origin.attractorId.None? then Some(NoAttractor(form.origin.id))
    else if form.destination.attractorId.None? then Some(NoAttractor(form.destination.id))
    else if form.origin.attractorId.value != form.destination.attractorId.value then Some(Message(NotSameAttractor))
    else if form.origin.id == form.destination.id then Some(Message(SameBodies))
    else None
  }

  /** The integer inputs are checked first, in order: the first invalid one is reported. */
  lemma FirstInvalidFieldReported(form: SequenceForm, i: nat)
    requires i < 4 && !CheckedFields(form)[i].valid
    requires forall k | 0 <= k < i :: CheckedFields(form)[k].valid
    ensures AssertSequenceInputs(form) == Some(FieldInvalid(CheckedFields(form)[i].id))
  {
    var fields := CheckedFields(form);
    assert 0 < i ==> fields[0].valid;
    assert 1 < i ==> fields[1].valid;
    assert 2 < i ==> fields[2].valid;
  }

  /** With valid inputs, bodies around different attractors are rejected for that reason, even
      when origin and destination are the same body; only then is sameness checked. */
  lemma AttractorCheckedBeforeSameness(form: SequenceForm)
    requires forall k | 0 <= k < 4 :: CheckedFields(form)[k].valid
    requires form.origin.attractorId.Some? && form.destination.attractorId.Some?
    ensures form.origin.attractorId != form.destination.attractorId ==>
              AssertSequenceInputs(form) == Some(Message(NotSameAttractor))
    ensures form.origin.attractorId == form.destination.attractorId && form.origin.id == form.destination.id ==>
              AssertSequenceInputs(form) == Some(Message(SameBodies))
  {
    assert CheckedFields(form)[0].valid && CheckedFields(form)[1].valid;
    assert CheckedFields(form)[2].valid && CheckedFields(form)[3].valid;
  }

  /** The parameters handed to the sequence generator. */
  function SequenceParams(form: SequenceForm): (p: SequenceParameters)
    ensures p.departureId == form.origin.id && p.destinationId == form.destination.id
    ensures [p.maxBackSpacing, p.maxSwingBys, p.maxResonant, p.maxBackLegs] ==
              seq(4, i requires 0 <= i < 4 => CheckedFields(form)[i].value)
  {
    SequenceParameters(
      form.origin.id,
      form.destination.id,
      form.maxSwingBys.value,
      form.maxResonant.value,
      form.maxBackLegs.value,
      form.maxBackSpacing.value)
  }

  /** Accepted parameters always name two different bodies. */
  lemma AcceptedParamsNameTwoBodies(form: SequenceForm)
    requires AssertSequenceInputs(form).None?
    ensures SequenceParams(form).departureId != SequenceParams(form).destinationId
  {
  }

  /** `Math.floor(100 * progression / totalFeasible)`: None stands for the NaN (0/0) or
      Infinity (k/0) that JavaScript computes when there is nothing to evaluate. */
  function ProgressPercent(progression: nat, totalFeasible: nat): (r: Option<int>)
    ensures r.None? <==> totalFeasible == 0
    ensures r.Some? ==> r.value * totalFeasible <= 100 * progression < (r.value + 1) * totalFeasible
  {
    if totalFeasible == 0 then None else Some(100 * progression / totalFeasible)
  }

  /** Progress within the total is a percentage between 0 and 100. */
  lemma ProgressIsPercentage(progression: nat, totalFeasible: nat)
    requires 0 < totalFeasible && progression <= totalFeasible
    ensures 0 <= ProgressPercent(progression, totalFeasible).value <= 100
    ensures progression == totalFeasible ==> ProgressPercent(progression, totalFeasible).value == 100
  {
    var r := ProgressPercent(progression, totalFeasible).value;
    ProductOrder(r, 101, totalFeasible);
    ProductOrder(0, r + 1, totalFeasible);
    if progression == totalFeasible {
      ProductOrder(100, r + 1, totalFeasible);
    }
  }

  /** Multiplying by a positive number keeps the order of two numbers. */
  lemma ProductOrder(a: int, b: int, t: int)
    requires 0 < t && a * t < b * t
    ensures a < b
  {
  }

  /** More progress never shows a smaller percentage. */
  lemma ProgressMonotone(p: nat, q: nat, totalFeasible: nat)
    requires 0 < totalFeasible && p <= q
    ensures ProgressPercent(p, totalFeasible).value <= ProgressPercent(q, totalFeasible).value
  {
    var r, s := ProgressPercent(p, totalFeasible).value, ProgressPercent(q, totalFeasible).value;
    assert r * totalFeasible <= 100 * p <= 100 * q < (s + 1) * totalFeasible;
    ProductOrder(r, s + 1, totalFeasible);
  }

  /** The progress message `Evaluation sequences : ${percent}%`. */
  function ProgressMessage(progression: nat, totalFeasible: nat): (m: string)
    ensures |m| > 24 && m[..23] == "Evaluation sequences : " && m[|m| - 1] == '%'
    ensures ProgressPercent(progression, totalFeasible).Some? ==>
              && (forall i | 23 <= i < |m| - 1 :: Decimal.IsDigit(m[i]))
              && Decimal.DigitsValue(m[23..|m| - 1]) == ProgressPercent(progression, totalFeasible).value
    ensures ProgressPercent(progression, totalFeasible).None? ==>
              m[23..|m| - 1] == if progression == 0 then "NaN" else "Infinity"
  {
    var percent := PercentText(progression, totalFeasible);
    var m := "Evaluation sequences : " + percent + "%";
    assert m[23..|m| - 1] == percent;
    m
  }

  /** How the template string renders the percentage: its decimal digits, or "NaN"/"Infinity". */
  function PercentText(progression: nat, totalFeasible: nat): (t: string)
    ensures 1 <= |t|
    ensures ProgressPercent(progression, totalFeasible).Some? ==>
              && (forall i | 0 <= i < |t| :: Decimal.IsDigit(t[i]))
              && Decimal.DigitsValue(t) == ProgressPercent(progression, totalFeasible).value
    ensures ProgressPercent(progression, totalFeasible).None? ==>
              t == if progression == 0 then "NaN" else "Infinity"
  {
    if totalFeasible == 0 then
      if progression == 0 then "NaN" else "Infinity"
    else
      var p := 100 * progression / totalFeasible;
      Decimal.DigitsValueOfNatToString(p);
      Decimal.IntToString(p)
  }

  // ----- Errors shown to the user -----

  /** The catch blocks show every error except the cancellation sentinel of their worker. */
  predicate ShownToUser(err: Thrown, sentinel: string): (shown: bool)
    ensures err.Message? ==> (shown <==> err.text != sentinel)
    ensures !err.Message? ==> shown
  {
    err != Message(sentinel)
  }

  // ----- The trajectory search -----

  /** The sequence searched: the custom text's sequence when the text is not empty, else the
      one picked in the sequence selector, if any. `parsed` is what `FlybySequence.fromString`
      gives for `customText`. With nothing picked, `updateAltitudeRange` fails on reading the
      bodies of the missing sequence. */
  function ChooseSequence(customText: string, selected: Option<FlybySequence>,
                          parsed: Result<FlybySequence, Thrown>): (r: Result<FlybySequence, Thrown>)
    ensures customText == [] && selected.Some? ==> r == Ok(selected.value)
    ensures customText == [] && selected.None? ==> r == Err(NoOriginBody)
    ensures customText != [] ==> r == parsed
  {
    if customText == "" then
      match selected
      case Some(sequence) => Ok(sequence)
      case None => Err(NoOriginBody)
    else parsed
  }

  /** `updateAltitudeRange`: the largest departure altitude, in km, is three quarters of the
      space between the first body's surface and the edge of its sphere of influence, rounded
      down. */
  function AltitudeCapKm(origin: SequenceBody): (cap: int)
    ensures (cap * 1000) as real <= 0.75 * (origin.soi - origin.radius)
    ensures 0.75 * (origin.soi - origin.radius) < ((cap + 1) * 1000) as real
  {
    (0.75 * (origin.soi - origin.radius) / 1000.0).Floor
  }

  /** `updateAltitudeRange` on a whole sequence: it fails when there is no first body. */
  function AltitudeRange(sequence: FlybySequence): (r: Result<int, Thrown>)
    ensures r.Err? <==> |sequence.bodies| == 0
    ensures r.Err? ==> r.error == NoOriginBody
    ensures r.Ok? ==> r.value == AltitudeCapKm(sequence.bodies[0])
  {
    if |sequence.bodies| == 0 then Err(NoOriginBody) else Ok(AltitudeCapKm(sequence.bodies[0]))
  }

  /** A body whose sphere of influence reaches above its surface allows altitude 0 at least. */
  lemma AltitudeRangeNotEmpty(origin: SequenceBody)
    requires origin.radius <= origin.soi
    ensures AltitudeCapKm(origin) >= 0
  {
  }

  /** The departure window is rejected exactly when it ends before it starts. */
  function CheckDepartureWindow(startDate: real, endDate: real): (r: Option<Thrown>)
    ensures r.Some? <==> endDate < startDate
    ensures r.Some? ==> r.value == Message(InvertedWindow)
  {
    if endDate < startDate then Some(Message(InvertedWindow)) else None
  }

  /** The checks of `findTrajectory` before the solver runs, giving the solver's request. */
  function PrepareSearch(customText: string, selected: Option<FlybySequence>, parsed: Result<FlybySequence, Thrown>,
                         startDate: real, endDate: real, altitudeKm: int): (r: Result<SearchRequest, Thrown>)
    ensures r.Ok? <==>
              && ChooseSequence(customText, selected, parsed).Ok?
              && |ChooseSequence(customText, selected, parsed).value.bodies| > 0
              && startDate <= endDate
    ensures r.Ok? ==>
              && r.value.sequence == ChooseSequence(customText, selected, parsed).value
              && r.value.startDate == startDate && r.value.endDate == endDate
              && r.value.altitude == altitudeKm * 1000
  {
    match ChooseSequence(customText, selected, parsed)
    case Err(e) => Err(e)
    case Ok(sequence) =>
      match AltitudeRange(sequence)
      case Err(e) => Err(e)
      case Ok(_) =>
        match CheckDepartureWindow(startDate, endDate)
        case Some(e) => Err(e)
        case None => Ok(SearchRequest(sequence, startDate, endDate, altitudeKm * 1000))
  }

  /** A bad custom sequence is reported before the departure window is looked at. */
  lemma SequenceCheckedBeforeWindow(customText: string, selected: Option<FlybySequence>, parsed: Result<FlybySequence, Thrown>,
                                    startDate: real, endDate: real, altitudeKm: int)
    requires customText != [] && parsed.Err?
    ensures PrepareSearch(customText, selected, parsed, startDate, endDate, altitudeKm) == Err(parsed.error)
  {
  }

  /** Without custom text and with nothing picked in the selector, or with a sequence that has
      no body, the search stops at the altitude range, whatever the departure window. */
  lemma MissingOriginReported(customText: string, selected: Option<FlybySequence>, parsed: Result<FlybySequence, Thrown>,
                              startDate: real, endDate: real, altitudeKm: int)
    requires ChooseSequence(customText, selected, parsed).Ok? ==>
               |ChooseSequence(customText, selected, parsed).value.bodies| == 0
    requires customText != [] ==> parsed.Ok?
    ensures PrepareSearch(customText, selected, parsed, startDate, endDate, altitudeKm) == Err(NoOriginBody)
  {
  }

  /** The altitude asked of the solver is the chosen kilometres in metres, so it stays within
      the range the altitude input offers when the chosen value does. */
  lemma RequestAltitudeWithinRange(customText: string, selected: Option<FlybySequence>, parsed: Result<FlybySequence, Thrown>,
                                   startDate: real, endDate: real, altitudeKm: int)
    requires PrepareSearch(customText, selected, parsed, startDate, endDate, altitudeKm).Ok?
    requires 0 <= altitudeKm <= AltitudeRange(ChooseSequence(customText, selected, parsed).value).value
    ensures var request := PrepareSearch(customText, selected, parsed, startDate, endDate, altitudeKm).value;
      && 0 <= request.altitude
      && request.altitude as real <= 0.75 * (request.sequence.bodies[0].soi - request.sequence.bodies[0].radius)
  {
    var cap := AltitudeCapKm(ChooseSequence(customText, selected, parsed).value.bodies[0]);
    assert altitudeKm * 1000 <= cap * 1000;
  }

  /** The editor's state that the two search handlers change. */
  class Editor {
    // sequence search
    var sequenceSelectorEnabled: bool
    var sequenceOptions: seq<FlybySequence>
    var sequenceProgressShown: bool
    var sequenceError: Option<Thrown>
    var lastSequenceParams: Option<SequenceParameters>
    // trajectory search
    var altitudeMin: int
    var altitudeMax: int
    var searchError: Option<Thrown>
    var lastSearch: Option<SearchRequest>
    var resultShown: bool
    /** `console.error`. */
    var errorLog: seq<Thrown>

    /** The state `initEditor` sets up: the sequence selector is disabled and empty, nothing
        has been searched and no error is shown. The altitude input starts with the bounds the
        page gives it. */
    constructor (pageAltitudeMin: int, pageAltitudeMax: int)
      ensures !sequenceSelectorEnabled && sequenceOptions == [] && !sequenceProgressShown
      ensures sequenceError == None && lastSequenceParams == None
      ensures altitudeMin == pageAltitudeMin && altitudeMax == pageAltitudeMax
      ensures searchError == None && lastSearch == None && !resultShown && errorLog == []
    {
      sequenceSelectorEnabled := false;
      sequenceOptions := [];
      sequenceProgressShown := false;
      sequenceError := None;
      lastSequenceParams := None;
      altitudeMin := pageAltitudeMin;
      altitudeMax := pageAltitudeMax;
      searchError := None;
      lastSearch := None;
      resultShown := false;
      errorLog := [];
    }

    /** The catch blocks: log every error, show it unless it is the worker's cancellation. */
    method Report(err: Thrown, sentinel: string) returns (shown: Option<Thrown>)
      modifies this`errorLog
      ensures errorLog == old(errorLog) + [err]
      ensures shown == (if ShownToUser(err, sentinel) then Some(err) else None)
    {
      shown := if err != Message(sentinel) then Some(err) else None;
      errorLog := errorLog + [err];
    }

    /** `generateSequences`. `generated` is what the sequence generator resolves or rejects
        with when it is started. */
    method GenerateSequences(form: SequenceForm, generated: Result<seq<FlybySequence>, Thrown>)
      modifies this
      ensures AssertSequenceInputs(form).None? ==> lastSequenceParams == Some(SequenceParams(form))
      ensures AssertSequenceInputs(form).Some? ==> lastSequenceParams == old(lastSequenceParams)
      ensures var outcome := if AssertSequenceInputs(form).Some? then Err(AssertSequenceInputs(form).value)
                             else generated;
        && sequenceSelectorEnabled == outcome.Ok?
        && sequenceOptions == (if outcome.Ok? then outcome.value else [])
        && sequenceError == (if outcome.Err? && ShownToUser(outcome.error, WorkerCancelled) then Some(outcome.error) else None)
        && errorLog == old(errorLog) + (if outcome.Err? then [outcome.error] else [])
      ensures sequenceError != Some(Message(WorkerCancelled))
      ensures !sequenceProgressShown
      ensures altitudeMin == old(altitudeMin) && altitudeMax == old(altitudeMax)
      ensures searchError == old(searchError) && lastSearch == old(lastSearch) && resultShown == old(resultShown)
    {
      sequenceError := None;
      sequenceSelectorEnabled := false;
      sequenceOptions := [];
      sequenceProgressShown := true;
      var invalid := AssertSequenceInputs(form);
      if invalid.Some? {
        sequenceError := Report(invalid.value, WorkerCancelled);
      } else {
        lastSequenceParams := Some(SequenceParams(form));
        match generated
        case Err(e) =>
          sequenceError := Report(e, WorkerCancelled);
        case Ok(sequences) =>
          sequenceOptions := sequences;
          sequenceSelectorEnabled := true;
      }
      sequenceProgressShown := false;
    }

    /** `findTrajectory`. `selected` is the sequence picked in the sequence selector, if any,
        `parsed` what `FlybySequence.fromString` gives for the custom text, `altitudeKm` the
        altitude input's value and `solved` the solver's rejection, if any. A search that
        completes shows the found trajectory. */
    method FindTrajectory(customText: string, selected: Option<FlybySequence>, parsed: Result<FlybySequence, Thrown>,
                          startDate: real, endDate: real, altitudeKm: int, solved: Option<Thrown>)
      requires selected.Some? ==> selected.value in sequenceOptions
      modifies this
      ensures var chosen := ChooseSequence(customText, selected, parsed);
        var range := if chosen.Ok? then AltitudeRange(chosen.value) else Err(chosen.error);
        && (range.Ok? ==> altitudeMin == 0 && altitudeMax == range.value)
        && (range.Err? ==> altitudeMin == old(altitudeMin) && altitudeMax == old(altitudeMax))
      ensures var prepared := PrepareSearch(customText, selected, parsed, startDate, endDate, altitudeKm);
        var outcome := if prepared.Err? then Some(prepared.error) else solved;
        && lastSearch == (if prepared.Ok? then Some(prepared.value) else old(lastSearch))
        && resultShown == (if prepared.Ok? then solved.None? else old(resultShown))
        && searchError == (if outcome.Some? && ShownToUser(outcome.value, FinderCancelled) then outcome else None)
        && errorLog == old(errorLog) + (if outcome.Some? then [outcome.value] else [])
      ensures searchError != Some(Message(FinderCancelled))
      ensures customText == [] && lastSearch != old(lastSearch) ==> lastSearch.value.sequence in sequenceOptions
      ensures sequenceSelectorEnabled == old(sequenceSelectorEnabled) && sequenceOptions == old(sequenceOptions)
      ensures sequenceProgressShown == old(sequenceProgressShown) && sequenceError == old(sequenceError)
      ensures lastSequenceParams == old(lastSequenceParams)
    {
      searchError := None;
      var chosen := ChooseSequence(customText, selected, parsed);
      if chosen.Err? {
        searchError := Report(chosen.error, FinderCancelled);
        return;
      }
      var sequence := chosen.value;
      var range := AltitudeRange(sequence);
      if range.Err? {
        searchError := Report(range.error, FinderCancelled);
        return;
      }
      altitudeMin, altitudeMax := 0, range.value;
      var inverted := CheckDepartureWindow(startDate, endDate);
      if inverted.Some? {
        searchError := Report(inverted.value, FinderCancelled);
        return;
      }
      var altitude := altitudeKm * 1000;
      resultShown := false;
      lastSearch := Some(SearchRequest(sequence, startDate, endDate, altitude));
      match solved
      case Some(e) =>
        searchError := Report(e, FinderCancelled);
      case None =>
        resultShown := true;
    }
  }
}
