/** The session stage machine: form -> math -> transition -> stroop ->
    save -> form. Each method is one pass of the stage it requires; the
    tests' outcomes arrive as that pass's result. */
module App {
  import opened Wrappers
  import Builtins
  import MathTest
  import Stroop

  datatype Stage = Form | Math | Transition | StroopStage | Save

  /** A value in the participant record; OptNum holds a number or
      Python's None. */
  datatype Field = Str(s: string) | Int(i: int) | Num(r: real) | Time(t: real) | OptNum(x: Option<real>)

  /** The columns of the participant record, in the order the CSV row
      lists them. */
  datatype Column =
    | Name | Age | Gender | HomeTown | CurrentCity | MotherLanguage | Qualification
    | ServiceStatus | Handedness | Device | Vision | PriorExposure | StartTime
    | MathAttempted | MathCorrect | MathWeightedAccuracy | MathSpeedEfficiency | MathNumericalScore
    | StroopErrorRate | StroopMeanRT | StroopInterference | StroopTotalTrials
    | EndTime

  /** The dict key, and CSV header, of each column. */
  function Header(c: Column): string {
    match c
    case Name => "Name"
    case Age => "Age"
    case Gender => "Gender"
    case HomeTown => "HomeTown"
    case CurrentCity => "CurrentCity"
    case MotherLanguage => "MotherLanguage"
    case Qualification => "Qualification"
    case ServiceStatus => "ServiceStatus"
    case Handedness => "Handedness"
    case Device => "Device"
    case Vision => "Vision"
    case PriorExposure => "PriorExposure"
    case StartTime => "StartTime"
    case MathAttempted => "Math_Attempted"
    case MathCorrect => "Math_Correct"
    case MathWeightedAccuracy => "Math_Weighted_Accuracy"
    case MathSpeedEfficiency => "Math_Speed_Efficiency"
    case MathNumericalScore => "Math_Numerical_Score"
    case StroopErrorRate => "Stroop_Error_Rate"
    case StroopMeanRT => "Stroop_Mean_RT"
    case StroopInterference => "Stroop_Interference"
    case StroopTotalTrials => "Stroop_Total_Trials"
    case EndTime => "EndTime"
  }

  /** Distinct columns have distinct keys, so a record keyed by Column is
      the participant_data dict keyed by those strings. */
  lemma HeaderInjective(c: Column, c': Column)
    requires Header(c) == Header(c')
    ensures c == c'
  {
  }

  type Record = map<Column, Field>

  /** What the demographics form holds when "Start Test" is pressed. */
  datatype FormInput = FormInput(
    name: string,
    age: string,
    gender: string,
    hometown: string,
    currentCity: string,
    motherLanguage: string,
    qualification: string,
    service: string,
    handedness: string,
    device: string,
    vision: string,
    priorTest: string,
    consent: bool)

  datatype FormError = ConsentRequired | NameRequired

  /** Consent is checked first, then a non-blank name. */
  function Validate(f: FormInput): (e: Option<FormError>)
    ensures e == Some(ConsentRequired) <==> !f.consent
    ensures e == Some(NameRequired) <==> f.consent && Builtins.AllSpace(f.name)
    ensures e == None <==> f.consent && !Builtins.AllSpace(f.name)
  {
    if !f.consent then Some(ConsentRequired)
    else if Builtins.Strip(f.name) == "" then Some(NameRequired)
    else None
  }

  const DEMOGRAPHIC_FIELDS: set<Column> :=
    {Name, Age, Gender, HomeTown, CurrentCity, MotherLanguage, Qualification,
     ServiceStatus, Handedness, Device, Vision, PriorExposure, StartTime}

  const MATH_FIELDS: set<Column> :=
    {MathAttempted, MathCorrect, MathWeightedAccuracy, MathSpeedEfficiency, MathNumericalScore}

  const STROOP_FIELDS: set<Column> :=
    {StroopErrorRate, StroopMeanRT, StroopInterference, StroopTotalTrials}

  /** The three groups of result columns are disjoint, and EndTime is
      in none of them, so merging one group never overwrites another. */
  lemma FieldGroupsDisjoint()
    ensures DEMOGRAPHIC_FIELDS !! MATH_FIELDS
    ensures DEMOGRAPHIC_FIELDS + MATH_FIELDS !! STROOP_FIELDS
    ensures EndTime !in DEMOGRAPHIC_FIELDS + MATH_FIELDS + STROOP_FIELDS
  {
  }

  /** The value a valid submission stores in each demographic column. */
  function FormValue(f: FormInput, now: real, c: Column): Field {
    match c
    case Name => Str(f.name)
    case Age => Str(f.age)
    case Gender => Str(f.gender)
    case HomeTown => Str(f.hometown)
    case CurrentCity => Str(f.currentCity)
    case MotherLanguage => Str(f.motherLanguage)
    case Qualification => Str(f.qualification)
    case ServiceStatus => Str(f.service)
    case Handedness => Str(f.handedness)
    case Device => Str(f.device)
    case Vision => Str(f.vision)
    case PriorExposure => Str(f.priorTest)
    case StartTime => Time(now)
    case _ => OptNum(None) // not a column of this group
  }

  /** The record a valid submission stores, stamped with StartTime. */
  function Demographics(f: FormInput, now: real): (r: Record)
    ensures r.Keys == DEMOGRAPHIC_FIELDS
    ensures r[Name] == Str(f.name) && r[Age] == Str(f.age) && r[Gender] == Str(f.gender)
    ensures r[HomeTown] == Str(f.hometown) && r[CurrentCity] == Str(f.currentCity)
    ensures r[MotherLanguage] == Str(f.motherLanguage) && r[Qualification] == Str(f.qualification)
    ensures r[ServiceStatus] == Str(f.service) && r[Handedness] == Str(f.handedness)
    ensures r[Device] == Str(f.device) && r[Vision] == Str(f.vision)
    ensures r[PriorExposure] == Str(f.priorTest) && r[StartTime] == Time(now)
  {
    var r := map c | c in DEMOGRAPHIC_FIELDS :: FormValue(f, now, c);
    PersonalValues(f, now, r);
    BackgroundValues(f, now, r);
    r
  }

  /** The personal columns of the stored demographics. */
  lemma PersonalValues(f: FormInput, now: real, r: Record)
    requires r == map c | c in DEMOGRAPHIC_FIELDS :: FormValue(f, now, c)
    ensures r[Name] == Str(f.name) && r[Age] == Str(f.age) && r[Gender] == Str(f.gender)
    ensures r[HomeTown] == Str(f.hometown) && r[CurrentCity] == Str(f.currentCity)
    ensures r[MotherLanguage] == Str(f.motherLanguage) && r[StartTime] == Time(now)
  {
  }

  /** The background columns of the stored demographics. */
  lemma BackgroundValues(f: FormInput, now: real, r: Record)
    requires r == map c | c in DEMOGRAPHIC_FIELDS :: FormValue(f, now, c)
    ensures r[Qualification] == Str(f.qualification) && r[ServiceStatus] == Str(f.service)
    ensures r[Handedness] == Str(f.handedness) && r[Device] == Str(f.device)
    ensures r[Vision] == Str(f.vision) && r[PriorExposure] == Str(f.priorTest)
  {
  }

  /** The value of each column of the dict run_math_test returns. */
  function MathValue(m: MathTest.MathResult, c: Column): Field {
    match c
    case MathAttempted => Int(m.attempted)
    case MathCorrect => Int(m.correct)
    case MathWeightedAccuracy => Num(m.weightedAccuracy)
    case MathSpeedEfficiency => Num(m.speedEfficiency)
    case MathNumericalScore => Num(m.numericalScore)
    case _ => OptNum(None) // not a column of this group
  }

  /** The dict run_math_test returns. */
  function MathFields(m: MathTest.MathResult): (r: Record)
    ensures r.Keys == MATH_FIELDS
    ensures r[MathAttempted] == Int(m.attempted) && r[MathCorrect] == Int(m.correct)
    ensures r[MathWeightedAccuracy] == Num(m.weightedAccuracy)
    ensures r[MathSpeedEfficiency] == Num(m.speedEfficiency)
    ensures r[MathNumericalScore] == Num(m.numericalScore)
  {
    map c | c in MATH_FIELDS :: MathValue(m, c)
  }

  /** The value of each column of the dict run_stroop_test returns. */
  function StroopValue(s: Stroop.StroopResult, c: Column): Field {
    match c
    case StroopErrorRate => Num(s.errorRate)
    case StroopMeanRT => OptNum(s.meanRT)
    case StroopInterference => OptNum(s.interference)
    case StroopTotalTrials => Int(s.totalTrials)
    case _ => OptNum(None) // not a column of this group
  }

  /** The dict run_stroop_test returns. */
  function StroopFields(s: Stroop.StroopResult): (r: Record)
    ensures r.Keys == STROOP_FIELDS
    ensures r[StroopErrorRate] == Num(s.errorRate)
    ensures r[StroopMeanRT] == OptNum(s.meanRT) && r[StroopInterference] == OptNum(s.interference)
    ensures r[StroopTotalTrials] == Int(s.totalTrials)
  {
    map c | c in STROOP_FIELDS :: StroopValue(s, c)
  }

  /** The session's stage and participant_data. */
  class Session {
    var stage: Stage
    var participant: Record

    /** The record holds exactly the fields gathered so far: nothing on
        the form, then the demographics, then the math fields, then the
        Stroop fields, and on the save page also EndTime. */
    ghost predicate Valid()
      reads this
    {
      match stage
      case Form => participant == map[]
      case Math => participant.Keys == DEMOGRAPHIC_FIELDS
      case Transition => participant.Keys == DEMOGRAPHIC_FIELDS + MATH_FIELDS
      case StroopStage => participant.Keys == DEMOGRAPHIC_FIELDS + MATH_FIELDS
      case Save =>
        || participant.Keys == DEMOGRAPHIC_FIELDS + MATH_FIELDS + STROOP_FIELDS
        || participant.Keys == DEMOGRAPHIC_FIELDS + MATH_FIELDS + STROOP_FIELDS + {EndTime}
    }

    /** A fresh session: stage "form" and an empty record. */
    constructor ()
      ensures Valid() && stage == Form && participant == map[]
    {
      stage := Form;
      participant := map[];
    }

    /** "Start Test" pressed on the form at clock `now`. */
    method StartTest(f: FormInput, now: real) returns (error: Option<FormError>)
      requires Valid() && stage == Form
      modifies this
      ensures Valid()
      ensures error == Validate(f)
      ensures error.Some? ==> stage == Form && participant == old(participant)
      ensures error.None? ==> stage == Math && participant == Demographics(f, now)
    {
      error := Validate(f);
      if error.None? {
        participant := Demographics(f, now);
        stage := Math;
      }
    }

    /** A pass of the math page; `result` is what run_math_test returned. */
    method MathPass(result: Option<MathTest.MathResult>)
      requires Valid() && stage == Math
      modifies this
      ensures Valid()
      ensures result.None? ==> stage == Math && participant == old(participant)
      ensures result.Some? ==>
                stage == Transition && participant == old(participant) + MathFields(result.value)
    {
      if result.Some? {
        participant := participant + MathFields(result.value);
        stage := Transition;
      }
    }

    /** The transition page (its 3-second pause is display only). */
    method TransitionPass()
      requires Valid() && stage == Transition
      modifies this
      ensures Valid()
      ensures stage == StroopStage && participant == old(participant)
    {
      stage := StroopStage;
    }

    /** A pass of the Stroop page; `result` is what run_stroop_test returned. */
    method StroopPass(result: Option<Stroop.StroopResult>)
      requires Valid() && stage == StroopStage
      modifies this
      ensures Valid()
      ensures result.None? ==> stage == StroopStage && participant == old(participant)
      ensures result.Some? ==>
                stage == Save && participant == old(participant) + StroopFields(result.value)
    {
      if result.Some? {
        participant := participant + StroopFields(result.value);
        stage := Save;
      }
    }

    /** A pass of the save page at clock `now`: stamp EndTime; when
        "Finish" was pressed, delete every session key, so the next pass
        starts again at "form" with an empty record. */
    method SavePass(now: real, finishPressed: bool)
      requires Valid() && stage == Save
      modifies this
      ensures Valid()
      ensures !finishPressed ==> stage == Save && participant == old(participant)[EndTime := Time(now)]
      ensures finishPressed ==> stage == Form && participant == map[]
    {
      participant := participant[EndTime := Time(now)];
      if finishPressed {
        stage := Form;
        participant := map[];
      }
    }
  }

  /** The record a completed session holds when it is saved. */
  function FinalRecord(f: FormInput, start: real, m: MathTest.MathResult,
                       s: Stroop.StroopResult, end: real): Record
  {
    (Demographics(f, start) + MathFields(m) + StroopFields(s))[EndTime := Time(end)]
  }

  /** A whole session: a valid form, a math result, the transition, a
      Stroop result and the save page. The saved record carries every
      field with the values gathered, and "Finish" returns to an empty
      form. */
  method CompleteSession(f: FormInput, start: real, m: MathTest.MathResult,
                         s: Stroop.StroopResult, end: real)
    returns (saved: Record, stageAfter: Stage, recordAfter: Record)
    requires Validate(f) == None
    ensures saved == FinalRecord(f, start, m, s, end)
    ensures saved.Keys == DEMOGRAPHIC_FIELDS + MATH_FIELDS + STROOP_FIELDS + {EndTime}
    ensures saved[Name] == Str(f.name) && saved[StartTime] == Time(start)
    ensures saved[MathAttempted] == Int(m.attempted)
    ensures saved[StroopTotalTrials] == Int(s.totalTrials)
    ensures stageAfter == Form && recordAfter == map[]
  {
    var session := new Session();
    var error := session.StartTest(f, start);
    session.MathPass(Some(m));
    session.TransitionPass();
    session.StroopPass(Some(s));
    session.SavePass(end, false);
    saved := session.participant;
    session.SavePass(end, true);
    stageAfter, recordAfter := session.stage, session.participant;
    FieldGroupsDisjoint();
    assert Name in DEMOGRAPHIC_FIELDS && StartTime in DEMOGRAPHIC_FIELDS;
    assert MathAttempted in MATH_FIELDS;
  }

  /** Starting without consent leaves the session on an empty form,
      whatever the name. */
  method StartWithoutConsent(f: FormInput, now: real)
    returns (error: Option<FormError>, stageAfter: Stage, recordAfter: Record)
    requires !f.consent
    ensures error == Some(ConsentRequired) && stageAfter == Form && recordAfter == map[]
  {
    var session := new Session();
    error := session.StartTest(f, now);
    stageAfter, recordAfter := session.stage, session.participant;
  }
}
