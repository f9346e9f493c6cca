/**
 * The application's HTTP client, seen from its callers. A request never throws: whatever the
 * transport does, the caller gets back an envelope whose success flag is all the onboarding
 * code looks at. Which requests succeed is fixed by an oracle: `outcome(i)` is the success flag
 * of the i-th request the client sends.
 */
module Api {
  import opened Wrappers

  /** A value of the onboarding form as JavaScript holds it. */
  datatype FieldValue = Text(s: string) | Num(n: real) | Texts(items: seq<string>)

  /** JavaScript truthiness of a form value: arrays are truthy even when empty. */
  predicate Truthy(v: FieldValue) {
    match v
    case Text(s) => s != ""
    case Num(n) => n != 0.0
    case Texts(_) => true
  }

  /** `items.join(",")`, which is what an array's toString gives. */
  function JoinComma(items: seq<string>): string
    decreases |items|
  {
    if items == [] then ""
    else if |items| == 1 then items[0]
    else items[0] + "," + JoinComma(items[1..])
  }

  /**
   * `v.toString()`. How a number prints is passed in as `numberText`: the shortest round-trip
   * formatting of doubles is not modelled.
   */
  function ValueText(v: FieldValue, numberText: real -> string): string {
    match v
    case Text(s) => s
    case Num(n) => numberText(n)
    case Texts(items) => JoinComma(items)
  }

  /** Every request the modelled code sends, with the body fields that matter to it. */
  datatype Request =
    | PutProfileName(firstName: FieldValue, lastName: FieldValue)
    | PutProfileGender(gender: FieldValue)
    | PutProfileBirthDate(birthDate: FieldValue)
    | PutProfileHeight(heightInches: real)
    | PutProfileAll(profileFirst: Option<FieldValue>, profileLast: Option<FieldValue>, profileGender: Option<FieldValue>, profileBirth: Option<FieldValue>)
    | PostGoals(goalType: FieldValue)
    | PostTrainingPreferences(medicalConditions: FieldValue)
    | PostCurrentWeight(weightLbs: FieldValue)
    | PostWeight(current: string, target: string)
    | PostFitnessData(vo2Max: real, raceTime: real)
    | PostMedicalConditions(conditionIds: seq<string>)
    | PutProgress(currentStep: string, currentFrontendStep: string)
    | PostComplete
    | GetStatus
    | GetMedicalConditions

  /** The client singleton: its bearer token and the requests it has sent so far. */
  class ApiClient {
    var token: Option<string>
    var log: seq<Request>
    const outcome: nat -> bool

    constructor (outcome: nat -> bool)
      ensures this.outcome == outcome
      ensures token == None && log == []
    {
      this.outcome := outcome;
      token := None;
      log := [];
    }

    /** setToken: replaces the bearer token. */
    method SetToken(t: Option<string>)
      modifies this`token
      ensures token == t
    {
      token := t;
    }

    /** Sends one request; the answer's success flag comes from the oracle. */
    method Send(r: Request) returns (success: bool)
      modifies this`log
      ensures log == old(log) + [r]
      ensures success == outcome(|old(log)|)
    {
      success := outcome(|log|);
      log := log + [r];
    }
  }
}
