/**
 * The prediction form component: its eight select fields, the validity
 * rule, the driver lists that hide drivers already chosen in another
 * field, and the state its handlers update (`formData`, `loading`,
 * `error`) as a class.
 */
module PredictionForm {
  import opened Wrappers
  import opened Seqs
  import opened Db

  datatype Field = PolePosition | RaceWinner | SecondPlace | ThirdPlace | FourthPlace | FifthPlace | SprintPole | SprintWinner

  /** `FormData`: a driver id per field, `''` for no choice. */
  datatype FormData = FormData(
    polePosition: string,
    raceWinner: string,
    secondPlace: string,
    thirdPlace: string,
    fourthPlace: string,
    fifthPlace: string,
    sprintPole: string,
    sprintWinner: string)

  /** The initial state: no field chosen. */
  const Blank: FormData := FormData("", "", "", "", "", "", "", "")

  /** The keys of `formData` in `Object.entries` order. */
  const Fields: seq<Field> := [PolePosition, RaceWinner, SecondPlace, ThirdPlace, FourthPlace, FifthPlace, SprintPole, SprintWinner]

  /** `requiredFields`: the pole and the five places. */
  const RequiredFields: seq<Field> := [PolePosition, RaceWinner, SecondPlace, ThirdPlace, FourthPlace, FifthPlace]

  /** A driver as the client lists it. */
  datatype ClientDriver = ClientDriver(id: string, name: string, number: int, team: string, isActive: bool, fullname: string)

  /** A saved prediction as the client reads it; the sprint fields may be absent. */
  datatype ClientPrediction = ClientPrediction(
    raceId: string,
    userId: string,
    polePosition: string,
    raceWinner: string,
    secondPlace: string,
    thirdPlace: string,
    fourthPlace: string,
    fifthPlace: string,
    sprintPole: Option<string>,
    sprintWinner: Option<string>)

  /** `formData[field]`. */
  function ValueOf(d: FormData, f: Field): string {
    match f
    case PolePosition => d.polePosition
    case RaceWinner => d.raceWinner
    case SecondPlace => d.secondPlace
    case ThirdPlace => d.thirdPlace
    case FourthPlace => d.fourthPlace
    case FifthPlace => d.fifthPlace
    case SprintPole => d.sprintPole
    case SprintWinner => d.sprintWinner
  }

  /** `{ ...prev, [field]: value }`: the named field takes the value, every other keeps its own. */
  function With(d: FormData, f: Field, v: string): (r: FormData)
    ensures forall g :: ValueOf(r, g) == if g == f then v else ValueOf(d, g)
  {
    match f
    case PolePosition => d.(polePosition := v)
    case RaceWinner => d.(raceWinner := v)
    case SecondPlace => d.(secondPlace := v)
    case ThirdPlace => d.(thirdPlace := v)
    case FourthPlace => d.(fourthPlace := v)
    case FifthPlace => d.(fifthPlace := v)
    case SprintPole => d.(sprintPole := v)
    case SprintWinner => d.(sprintWinner := v)
  }

  /** The form the `useEffect` loads from a saved prediction: absent sprint fields become `''`. */
  function FromPrediction(p: ClientPrediction): FormData {
    FormData(p.polePosition, p.raceWinner, p.secondPlace, p.thirdPlace, p.fourthPlace, p.fifthPlace,
             p.sprintPole.GetOr(""), p.sprintWinner.GetOr(""))
  }

  /**
   * `isFormValid`: every required field is chosen, and with a sprint the
   * sprint pole and sprint winner too.
   */
  function IsFormValid(d: FormData, hasSprint: bool): (r: bool)
    ensures r <==>
      d.polePosition != "" && d.raceWinner != "" && d.secondPlace != "" && d.thirdPlace != ""
      && d.fourthPlace != "" && d.fifthPlace != "" && (hasSprint ==> d.sprintPole != "" && d.sprintWinner != "")
  {
    var raceFields := forall i :: 0 <= i < |RequiredFields| ==> ValueOf(d, RequiredFields[i]) != "";
    assert raceFields <==>
      ValueOf(d, RequiredFields[0]) != "" && ValueOf(d, RequiredFields[1]) != "" && ValueOf(d, RequiredFields[2]) != ""
      && ValueOf(d, RequiredFields[3]) != "" && ValueOf(d, RequiredFields[4]) != "" && ValueOf(d, RequiredFields[5]) != "";
    if hasSprint then raceFields && d.sprintPole != "" && d.sprintWinner != "" else raceFields
  }

  /** The entries `filter` keeps for `selectedDrivers`: other fields with a choice. */
  function ChosenElsewhere(d: FormData, current: Field): seq<Field> {
    Filter(Fields, (g: Field) => g != current && ValueOf(d, g) != "")
  }

  /** `selectedDrivers`: the choices of the other fields. */
  function Selected(d: FormData, current: Field): (r: seq<string>)
    ensures forall v :: v in r <==> exists g :: g != current && ValueOf(d, g) == v && v != ""
  {
    var keys := ChosenElsewhere(d, current);
    var r := seq(|keys|, i requires 0 <= i < |keys| => ValueOf(d, keys[i]));
    assert forall v :: v in r <==> exists g :: g != current && ValueOf(d, g) == v && v != "" by {
      forall v ensures v in r <==> exists g :: g != current && ValueOf(d, g) == v && v != "" {
        if v in r {
          var i :| 0 <= i < |r| && r[i] == v;
          assert keys[i] in keys;
        }
        if exists g :: g != current && ValueOf(d, g) == v && v != "" {
          var g :| g != current && ValueOf(d, g) == v && v != "";
          AllFields(g);
          var i :| 0 <= i < |keys| && keys[i] == g;
          assert r[i] == v;
        }
      }
    }
    r
  }

  /** `Fields` lists every field. */
  lemma AllFields(g: Field)
    ensures g in Fields
  {
    match g
    case PolePosition => assert Fields[0] == g;
    case RaceWinner => assert Fields[1] == g;
    case SecondPlace => assert Fields[2] == g;
    case ThirdPlace => assert Fields[3] == g;
    case FourthPlace => assert Fields[4] == g;
    case FifthPlace => assert Fields[5] == g;
    case SprintPole => assert Fields[6] == g;
    case SprintWinner => assert Fields[7] == g;
  }

  /** `getAvailableDrivers(currentField)`. */
  function AvailableDrivers(d: FormData, drivers: seq<ClientDriver>, current: Field): seq<ClientDriver> {
    var selected := Selected(d, current);
    Filter(drivers, (x: ClientDriver) => x.id !in selected)
  }

  /** No field but `current` holds `id`. */
  predicate NotChosenElsewhere(d: FormData, current: Field, id: string) {
    forall g :: g != current ==> ValueOf(d, g) != id
  }

  /**
   * The list `getAvailableDrivers` gives a field holds exactly the drivers
   * no other field has chosen, sprint fields included, and so its own
   * choice; it keeps the order of `drivers`, part by part. The form calls
   * it only for the winner to fifth-place selects; the pole and sprint
   * selects list every driver.
   */
  lemma AvailableCorrect(d: FormData, drivers: seq<ClientDriver>, current: Field)
    ensures forall x :: x in AvailableDrivers(d, drivers, current) <==>
      x in drivers && forall g :: g != current && ValueOf(d, g) != "" ==> ValueOf(d, g) != x.id
    ensures forall x :: x in drivers && x.id == ValueOf(d, current) && NotChosenElsewhere(d, current, x.id) ==>
      x in AvailableDrivers(d, drivers, current)
    ensures forall a, b :: drivers == a + b ==>
      AvailableDrivers(d, drivers, current) == AvailableDrivers(d, a, current) + AvailableDrivers(d, b, current)
  {
    var selected := Selected(d, current);
    forall a, b | drivers == a + b
      ensures AvailableDrivers(d, drivers, current) == AvailableDrivers(d, a, current) + AvailableDrivers(d, b, current)
    {
      FilterAppend(a, b, (x: ClientDriver) => x.id !in selected);
    }
  }

  /** `isDisabled`: the selects are disabled for a finished or live race. */
  predicate IsDisabled(status: string) {
    status == Completed || status == Live
  }

  /**
   * For the three statuses a race takes, the form is editable exactly when
   * the predictions route accepts a save, for an upcoming race.
   */
  lemma EditableWhenAccepted(status: string)
    requires status == Upcoming || status == Live || status == Completed
    ensures !IsDisabled(status) <==> status == Upcoming
  {
  }

  /** `PredictionForm`: the sprint fields are present only for a sprint weekend. */
  datatype Payload = Payload(
    polePosition: string,
    raceWinner: string,
    secondPlace: string,
    thirdPlace: string,
    fourthPlace: string,
    fifthPlace: string,
    sprintPole: Option<string>,
    sprintWinner: Option<string>)

  /** The call `handleSubmit` makes. */
  datatype Call = Update(raceId: string, payload: Payload) | Create(raceId: string, payload: Payload)

  const FillAll: string := "Please fill all required fields"
  const SaveFailed: string := "Failed to save prediction"

  /** `predictionData`. */
  function PayloadOf(d: FormData, hasSprint: bool): (r: Payload)
    ensures r.sprintPole.Some? <==> hasSprint
    ensures r.sprintWinner.Some? <==> hasSprint
    ensures forall f :: f in RequiredFields ==> ValueOf(d, f) == PayloadValue(r, f).value
    ensures hasSprint ==> r.sprintPole == Some(d.sprintPole) && r.sprintWinner == Some(d.sprintWinner)
  {
    Payload(d.polePosition, d.raceWinner, d.secondPlace, d.thirdPlace, d.fourthPlace, d.fifthPlace,
            if hasSprint then Some(d.sprintPole) else None, if hasSprint then Some(d.sprintWinner) else None)
  }

  /** A field of the payload, `None` when it is left out. */
  function PayloadValue(p: Payload, f: Field): Option<string> {
    match f
    case PolePosition => Some(p.polePosition)
    case RaceWinner => Some(p.raceWinner)
    case SecondPlace => Some(p.secondPlace)
    case ThirdPlace => Some(p.thirdPlace)
    case FourthPlace => Some(p.fourthPlace)
    case FifthPlace => Some(p.fifthPlace)
    case SprintPole => p.sprintPole
    case SprintWinner => p.sprintWinner
  }

  /** A valid form sends a non-empty choice for every field it sends, and every field the race needs. */
  lemma ValidPayloadComplete(d: FormData, hasSprint: bool)
    requires IsFormValid(d, hasSprint)
    ensures forall f :: PayloadValue(PayloadOf(d, hasSprint), f).Some? ==> PayloadValue(PayloadOf(d, hasSprint), f).value != ""
    ensures forall f :: f in RequiredFields ==> PayloadValue(PayloadOf(d, hasSprint), f).Some?
  {
  }

  /** The component's state. */
  class FormState {
    var formData: FormData
    var loading: bool
    var error: Option<string>

    constructor ()
      ensures formData == Blank && !loading && error == None
    {
      formData, loading, error := Blank, false, None;
    }

    /** The `useEffect` on `prediction`: a saved prediction fills the form. */
    method Load(prediction: Option<ClientPrediction>)
      modifies this
      ensures prediction.None? ==> formData == old(formData)
      ensures prediction.Some? ==> formData == FromPrediction(prediction.value)
      ensures loading == old(loading) && error == old(error)
    {
      if prediction.Some? {
        formData := FromPrediction(prediction.value);
      }
    }

    /** `handleSelectChange`: only the named field changes. */
    method HandleSelectChange(field: Field, value: string)
      modifies this
      ensures ValueOf(formData, field) == value
      ensures forall g :: g != field ==> ValueOf(formData, g) == ValueOf(old(formData), g)
      ensures loading == old(loading) && error == old(error)
    {
      formData := With(formData, field, value);
    }

    /**
     * `handleSubmit`. An invalid form sets the error and calls nothing.
     * A valid one updates the existing prediction or creates one; `outcome`
     * is what the call returns, and a success is handed to
     * `onPredictionUpdate`, returned here as `updated`.
     */
    method HandleSubmit(race: Race, prediction: Option<ClientPrediction>, outcome: Result<ClientPrediction, Option<string>>)
      returns (call: Option<Call>, updated: Option<ClientPrediction>)
      modifies this
      ensures formData == old(formData)
      ensures !IsFormValid(formData, race.hasSprint) ==>
        call.None? && updated.None? && error == Some(FillAll) && loading == old(loading)
      ensures IsFormValid(formData, race.hasSprint) ==>
        && call == Some(if prediction.Some? then Update(race.id, PayloadOf(formData, race.hasSprint))
                        else Create(race.id, PayloadOf(formData, race.hasSprint)))
        && !loading
        && (outcome.Success? ==> updated == Some(outcome.value) && error == None)
        && (outcome.Failure? ==> updated.None? && error == Some(outcome.error.GetOr(SaveFailed)))
    {
      if !IsFormValid(formData, race.hasSprint) {
        error := Some(FillAll);
        return None, None;
      }
      loading := true;
      error := None;
      var payload := PayloadOf(formData, race.hasSprint);
      if prediction.Some? {
        call := Some(Update(race.id, payload));
      } else {
        call := Some(Create(race.id, payload));
      }
      match outcome {
        case Success(result) =>
          updated := Some(result);
        case Failure(message) =>
          updated := None;
          error := Some(message.GetOr(SaveFailed));
      }
      loading := false;
    }
  }
}
