/**
 * The admin panel of frontend/src/components/AdminControls.js: the manual
 * entry form with its field updates, its validation and its reset after an
 * accepted submit, the house choices, and the requests its generator
 * buttons make.
 */
module AdminControls {
  import opened Wrappers
  import opened JsText
  import opened Houses
  import Controller

  /** `entryForm`: the three inputs, as the text they hold. */
  datatype EntryForm = EntryForm(house: string, points: string, reason: string)

  /** The field a change event names. */
  datatype Field = HouseField | PointsField | ReasonField

  /** The argument of `onAddEntry`. */
  datatype Submission = Submission(house: string, points: int, reason: Option<string>)

  /** The argument pair of `onControlGenerator`: an action and its options. */
  datatype ControlRequest = ControlRequest(action: string, intervalMinutes: Option<int>)

  const EmptyForm: EntryForm := EntryForm("", "", "")

  const FillRequired: string := "Please fill in all required fields"
  const PointsOutOfRange: string := "Points must be between -100 and 100"

  /** The options of the house select, after the empty "Select House" option. */
  const HouseChoices: seq<string> := ["Gryffindor", "Slytherin", "Ravenclaw", "Hufflepuff"]

  /** The select offers exactly the houses of the `houses` table, in its order. */
  lemma HouseChoicesAreHouses()
    ensures HouseChoices == Names
    ensures forall h :: h in HouseChoices <==> IsHouse(h)
  {
  }

  /** The buttons of the generator group. */
  const StartButton: ControlRequest := ControlRequest("start", Some(1))
  const StopButton: ControlRequest := ControlRequest("stop", None)
  const GenerateButton: ControlRequest := ControlRequest("generate", None)

  /** `{ ...prev, [field]: value }`. */
  function WithField(form: EntryForm, field: Field, value: string): (r: EntryForm)
    ensures field == HouseField ==> r.house == value
    ensures field == PointsField ==> r.points == value
    ensures field == ReasonField ==> r.reason == value
    ensures field != HouseField ==> r.house == form.house
    ensures field != PointsField ==> r.points == form.points
    ensures field != ReasonField ==> r.reason == form.reason
  {
    match field
    case HouseField => form.(house := value)
    case PointsField => form.(points := value)
    case ReasonField => form.(reason := value)
  }

  /** `entryForm.reason.trim() || null`. */
  function ReasonOf(reason: string): (r: Option<string>)
    ensures r.None? <==> forall i :: 0 <= i < |reason| ==> IsSpace(reason[i])
    ensures r.Some? ==> r.value == Trim(reason) && !IsSpace(r.value[0]) && !IsSpace(r.value[|r.value| - 1])
  {
    var t := Trim(reason);
    if t == [] then None else Some(t)
  }

  /**
   * The checks of `handleSubmit`: a house and a points text are required;
   * `parseInt` of the points must be a number within -100..100. An accepted
   * form becomes the house, the parsed points and the trimmed reason (null
   * when it is blank).
   */
  function Validate(form: EntryForm): (r: Result<Submission, string>)
    ensures r == Failure(FillRequired) <==> form.house == "" || form.points == ""
    ensures r == Failure(PointsOutOfRange) <==>
      && form.house != "" && form.points != ""
      && (ParseInt(form.points).NaN? || ParseInt(form.points).n < -100 || ParseInt(form.points).n > 100)
    ensures r.Success? ==>
      && r.value.house == form.house
      && ParseInt(form.points) == Int(r.value.points)
      && -100 <= r.value.points <= 100
      && r.value.reason == ReasonOf(form.reason)
  {
    if form.house == "" || form.points == "" then Failure(FillRequired)
    else match ParseInt(form.points)
      case NaN => Failure(PointsOutOfRange)
      case Int(n) =>
        if n < -100 || n > 100 then Failure(PointsOutOfRange)
        else Success(Submission(form.house, n, ReasonOf(form.reason)))
  }

  /**
   * Every submission the form can produce is typed back by filling in its
   * house, the decimal rendering of its points and its reason: the form
   * accepts exactly the points -100..100.
   */
  lemma ValidateAcceptsRendered(house: string, n: int, reason: string)
    requires house != ""
    ensures -100 <= n <= 100 ==>
      Validate(EntryForm(house, IntToString(n), reason)) == Success(Submission(house, n, ReasonOf(reason)))
    ensures !(-100 <= n <= 100) ==>
      Validate(EntryForm(house, IntToString(n), reason)) == Failure(PointsOutOfRange)
  {
    IntToStringRoundTrip(n);
    assert IntToString(n) != "" by {
      if n < 0 {
        assert IntToString(n)[0] == '-';
      }
    }
  }

  /**
   * The dashboard hands an accepted submission to the socket `add-entry`
   * handler, which takes it and saves its points as they stand. The form
   * sends its points as a number, so `POST /entries` would take it too,
   * under the checks as written and as intended alike.
   */
  lemma AcceptedFormPassesServer(form: EntryForm)
    requires Validate(form).Success? && IsHouse(form.house)
    ensures var s := Validate(form).value;
      && Controller.SocketEntryCheck(Str(s.house), Number(s.points)) == Controller.Insert(s.house, Int(s.points))
      && Controller.EntryCheck(Str(s.house), Number(s.points)) == Controller.Insert(s.house, Int(s.points))
      && Controller.EntryCheckAsWritten(Str(s.house), Number(s.points)) == Controller.Insert(s.house, Int(s.points))
  {
    SubmissionPassesServer(Validate(form).value);
  }

  lemma SubmissionPassesServer(s: Submission)
    requires IsHouse(s.house) && -100 <= s.points <= 100
    ensures Controller.SocketEntryCheck(Str(s.house), Number(s.points)) == Controller.Insert(s.house, Int(s.points))
    ensures Controller.EntryCheck(Str(s.house), Number(s.points)) == Controller.Insert(s.house, Int(s.points))
    ensures Controller.EntryCheckAsWritten(Str(s.house), Number(s.points)) == Controller.Insert(s.house, Int(s.points))
  {
    var house, points := Str(s.house), Number(s.points);
    IntToStringRoundTrip(s.points);
    assert ParseIntValue(points) == Int(s.points) && ToNumber(points) == Int(s.points);
    HouseNamed(s.house);
    assert Controller.NamesHouse(house) && Truthy(house) && points != Undefined;
    Controller.ChecksAgreeOnNumbers(house, s.points);
  }

  /**
   * The Start button asks for an interval of one. The socket
   * `control-generator` handler applies the same `intervalMinutes || 1` as
   * `controlDataGenerator`, so the interval reaches `start` unchanged.
   */
  lemma StartButtonInterval()
    ensures StartButton.intervalMinutes == Some(1)
    ensures Controller.ControlDecision(Str(StartButton.action), Number(1), Undefined) == Controller.StartCall(Number(1))
  {
  }

  /** The panel: the form state, and the submissions handed to `onAddEntry` so far. */
  class AdminPanel {
    var form: EntryForm
    var submitted: seq<Submission>

    constructor()
      ensures form == EmptyForm && submitted == []
    {
      form := EmptyForm;
      submitted := [];
    }

    /** `handleFormChange(field, value)`: only the named field changes. */
    method HandleFormChange(field: Field, value: string)
      modifies this
      ensures form == WithField(old(form), field, value)
      ensures submitted == old(submitted)
    {
      form := WithField(form, field, value);
    }

    /**
     * `handleSubmit`: a rejected form is left as it is and nothing is
     * submitted; an accepted one is submitted once and the form is cleared.
     */
    method HandleSubmit() returns (r: Result<Submission, string>)
      modifies this
      ensures r == Validate(old(form))
      ensures r.Failure? ==> form == old(form) && submitted == old(submitted)
      ensures r.Success? ==> form == EmptyForm && submitted == old(submitted) + [r.value]
    {
      r := Validate(form);
      if r.Success? {
        submitted := submitted + [r.value];
        form := EmptyForm;
      }
    }
  }

  /** A cleared form cannot be submitted again straight away. */
  lemma EmptyFormRejected()
    ensures Validate(EmptyForm) == Failure(FillRequired)
  {
  }
}
