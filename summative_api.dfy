/** The deployed prediction service: the `StudentInput` request schema with plain
    `float`/`str` fields and twelve `@validator` methods, and no `Field` bounds. */
module SummativeApi {
  import opened Student

  /** The service's own copy of the constraint table. */
  const FeatureConstraints: seq<Entry> := [
    Entry(HoursStudied, Numerical(0.0, 50.0)),
    Entry(Attendance, Numerical(0.0, 100.0)),
    Entry(AccessToResources, Categorical(["Low", "Medium", "High"])),
    Entry(ExtracurricularActivities, Categorical(["Yes", "No"])),
    Entry(SleepHours, Numerical(0.0, 24.0)),
    Entry(PreviousScores, Numerical(0.0, 100.0)),
    Entry(InternetAccess, Categorical(["Yes", "No"])),
    Entry(TeacherQuality, Categorical(["Low", "Medium", "High"])),
    Entry(SchoolType, Categorical(["Public", "Private"])),
    Entry(PeerInfluence, Categorical(["Positive", "Negative", "Neutral"])),
    Entry(LearningDisabilities, Categorical(["Yes", "No"])),
    Entry(Gender, Categorical(["Male", "Female"]))
  ]

  // ---- the twelve validators: each accepts exactly what its table entry admits,
  // returns the value unchanged, and otherwise raises a message naming the field

  function ValidateHoursStudied(v: real): (r: Result<real, string>)
    ensures r.Ok? <==> Admits(FeatureConstraints[0].constraint, Num(v))
    ensures r.Ok? ==> r.value == v
    ensures r.Err? ==> "Hours_Studied" <= r.error
  {
    if !(0.0 <= v <= 50.0) then Err("Hours_Studied must be between 0 and 50") else Ok(v)
  }

  function ValidateAttendance(v: real): (r: Result<real, string>)
    ensures r.Ok? <==> Admits(FeatureConstraints[1].constraint, Num(v))
    ensures r.Ok? ==> r.value == v
    ensures r.Err? ==> "Attendance" <= r.error
  {
    if !(0.0 <= v <= 100.0) then Err("Attendance must be between 0 and 100") else Ok(v)
  }

  function ValidateSleepHours(v: real): (r: Result<real, string>)
    ensures r.Ok? <==> Admits(FeatureConstraints[4].constraint, Num(v))
    ensures r.Ok? ==> r.value == v
    ensures r.Err? ==> "Sleep_Hours" <= r.error
  {
    if !(0.0 <= v <= 24.0) then Err("Sleep_Hours must be between 0 and 24") else Ok(v)
  }

  function ValidatePreviousScores(v: real): (r: Result<real, string>)
    ensures r.Ok? <==> Admits(FeatureConstraints[5].constraint, Num(v))
    ensures r.Ok? ==> r.value == v
    ensures r.Err? ==> "Previous_Scores" <= r.error
  {
    if !(0.0 <= v <= 100.0) then Err("Previous_Scores must be between 0 and 100") else Ok(v)
  }

  function ValidateAccessToResources(v: string): (r: Result<string, string>)
    ensures r.Ok? <==> Admits(FeatureConstraints[2].constraint, Str(v))
    ensures r.Ok? ==> r.value == v
    ensures r.Err? ==> "Access_to_Resources" <= r.error
  {
    if v !in ["Low", "Medium", "High"] then Err("Access_to_Resources must be Low, Medium, or High") else Ok(v)
  }

  function ValidateExtracurricularActivities(v: string): (r: Result<string, string>)
    ensures r.Ok? <==> Admits(FeatureConstraints[3].constraint, Str(v))
    ensures r.Ok? ==> r.value == v
    ensures r.Err? ==> "Extracurricular_Activities" <= r.error
  {
    if v !in ["Yes", "No"] then Err("Extracurricular_Activities must be Yes or No") else Ok(v)
  }

  function ValidateInternetAccess(v: string): (r: Result<string, string>)
    ensures r.Ok? <==> Admits(FeatureConstraints[6].constraint, Str(v))
    ensures r.Ok? ==> r.value == v
    ensures r.Err? ==> "Internet_Access" <= r.error
  {
    if v !in ["Yes", "No"] then Err("Internet_Access must be Yes or No") else Ok(v)
  }

  function ValidateTeacherQuality(v: string): (r: Result<string, string>)
    ensures r.Ok? <==> Admits(FeatureConstraints[7].constraint, Str(v))
    ensures r.Ok? ==> r.value == v
    ensures r.Err? ==> "Teacher_Quality" <= r.error
  {
    if v !in ["Low", "Medium", "High"] then Err("Teacher_Quality must be Low, Medium, or High") else Ok(v)
  }

  function ValidateSchoolType(v: string): (r: Result<string, string>)
    ensures r.Ok? <==> Admits(FeatureConstraints[8].constraint, Str(v))
    ensures r.Ok? ==> r.value == v
    ensures r.Err? ==> "School_Type" <= r.error
  {
    if v !in ["Public", "Private"] then Err("School_Type must be Public or Private") else Ok(v)
  }

  function ValidatePeerInfluence(v: string): (r: Result<string, string>)
    ensures r.Ok? <==> Admits(FeatureConstraints[9].constraint, Str(v))
    ensures r.Ok? ==> r.value == v
    ensures r.Err? ==> "Peer_Influence" <= r.error
  {
    if v !in ["Positive", "Negative", "Neutral"] then Err("Peer_Influence must be Positive, Negative, or Neutral") else Ok(v)
  }

  function ValidateLearningDisabilities(v: string): (r: Result<string, string>)
    ensures r.Ok? <==> Admits(FeatureConstraints[10].constraint, Str(v))
    ensures r.Ok? ==> r.value == v
    ensures r.Err? ==> "Learning_Disabilities" <= r.error
  {
    if v !in ["Yes", "No"] then Err("Learning_Disabilities must be Yes or No") else Ok(v)
  }

  function ValidateGender(v: string): (r: Result<string, string>)
    ensures r.Ok? <==> Admits(FeatureConstraints[11].constraint, Str(v))
    ensures r.Ok? ==> r.value == v
    ensures r.Err? ==> "Gender" <= r.error
  {
    if v !in ["Male", "Female"] then Err("Gender must be Male or Female") else Ok(v)
  }

  /** What one field contributes to the validation error: nothing, or the one message
      its validator raised. `@validator('<name>')` binds each validator to its field. */
  function Outcome(r: Record, f: Feature): seq<FieldError>
  {
    match f
    case HoursStudied => Issues(Raised(HoursStudied, ValidateHoursStudied(r.hoursStudied)))
    case Attendance => Issues(Raised(Attendance, ValidateAttendance(r.attendance)))
    case AccessToResources => Issues(Raised(AccessToResources, ValidateAccessToResources(r.accessToResources)))
    case ExtracurricularActivities => Issues(Raised(ExtracurricularActivities, ValidateExtracurricularActivities(r.extracurricularActivities)))
    case SleepHours => Issues(Raised(SleepHours, ValidateSleepHours(r.sleepHours)))
    case PreviousScores => Issues(Raised(PreviousScores, ValidatePreviousScores(r.previousScores)))
    case InternetAccess => Issues(Raised(InternetAccess, ValidateInternetAccess(r.internetAccess)))
    case TeacherQuality => Issues(Raised(TeacherQuality, ValidateTeacherQuality(r.teacherQuality)))
    case SchoolType => Issues(Raised(SchoolType, ValidateSchoolType(r.schoolType)))
    case PeerInfluence => Issues(Raised(PeerInfluence, ValidatePeerInfluence(r.peerInfluence)))
    case LearningDisabilities => Issues(Raised(LearningDisabilities, ValidateLearningDisabilities(r.learningDisabilities)))
    case Gender => Issues(Raised(Gender, ValidateGender(r.gender)))
  }

  /** What each field contributes, in declaration order. */
  function Parts(r: Record): seq<seq<FieldError>>
  {
    seq(|Features|, i requires 0 <= i < |Features| => Outcome(r, Features[i]))
  }

  /** The errors of all failing fields, in declaration order. */
  function Errors(r: Record): seq<FieldError>
  {
    Flatten(Parts(r))
  }

  /** Building a `StudentInput`: every field is validated and the errors of all failing
      fields are reported together in declaration order. On success the model holds the
      values the validators returned, which are the request's own values. */
  function Validate(r: Record): (res: Result<Record, seq<FieldError>>)
    ensures res.Err? ==> res.error != [] && AllNamed(res.error)
  {
    var errors := Errors(r);
    if errors != [] then
      ErrorsNamed(r);
      Err(errors)
    else
      Ok(r)
  }

  // ---- properties

  /** A field contributes at most one error, a validator message about itself that names it. */
  lemma OutcomeNamed(r: Record, f: Feature)
    ensures |Outcome(r, f)| <= 1
    ensures AllNamed(Outcome(r, f))
    ensures forall e :: e in Outcome(r, f) ==> e.field == f && e.reason.Message?
  {
    match f
    case HoursStudied => RaisedNamed(HoursStudied, ValidateHoursStudied(r.hoursStudied));
    case Attendance => RaisedNamed(Attendance, ValidateAttendance(r.attendance));
    case AccessToResources => RaisedNamed(AccessToResources, ValidateAccessToResources(r.accessToResources));
    case ExtracurricularActivities => RaisedNamed(ExtracurricularActivities, ValidateExtracurricularActivities(r.extracurricularActivities));
    case SleepHours => RaisedNamed(SleepHours, ValidateSleepHours(r.sleepHours));
    case PreviousScores => RaisedNamed(PreviousScores, ValidatePreviousScores(r.previousScores));
    case InternetAccess => RaisedNamed(InternetAccess, ValidateInternetAccess(r.internetAccess));
    case TeacherQuality => RaisedNamed(TeacherQuality, ValidateTeacherQuality(r.teacherQuality));
    case SchoolType => RaisedNamed(SchoolType, ValidateSchoolType(r.schoolType));
    case PeerInfluence => RaisedNamed(PeerInfluence, ValidatePeerInfluence(r.peerInfluence));
    case LearningDisabilities => RaisedNamed(LearningDisabilities, ValidateLearningDisabilities(r.learningDisabilities));
    case Gender => RaisedNamed(Gender, ValidateGender(r.gender));
  }

  /** A field contributes no error exactly when the record satisfies that field's entry. */
  lemma OutcomeMatchesTable(r: Record, f: Feature)
    ensures Outcome(r, f) == [] <==> Satisfies(FeatureConstraints[Index(f)], r)
  {
    match f
    case HoursStudied => case Attendance => case AccessToResources => case ExtracurricularActivities =>
    case SleepHours => case PreviousScores => case InternetAccess => case TeacherQuality =>
    case SchoolType => case PeerInfluence => case LearningDisabilities => case Gender =>
  }

  /** Every reported error comes from a validator and names its field. */
  lemma ErrorsNamed(r: Record)
    ensures AllNamed(Errors(r))
    ensures forall e :: e in Errors(r) ==> e.reason.Message?
  {
    var parts := Parts(r);
    forall e | e in Errors(r) ensures NamesField(e) && e.reason.Message? {
      InFlatten(parts, e);
      var i :| 0 <= i < |Features| && e in parts[i];
      OutcomeNamed(r, Features[i]);
    }
  }

  /** A request passes schema validation exactly when it satisfies every entry of the table. */
  lemma ValidateMatchesTable(r: Record)
    ensures Validate(r).Ok? <==> Valid(FeatureConstraints, r)
  {
    ErrorsMatchTable(r);
  }

  /** No field reports an error exactly when the record satisfies every entry of the table. */
  lemma ErrorsMatchTable(r: Record)
    ensures Errors(r) == [] <==> Valid(FeatureConstraints, r)
  {
    var parts := Parts(r);
    FlattenEmpty(parts);
    ValidAt(FeatureConstraints, r);
    forall i | 0 <= i < |Features|
      ensures parts[i] == [] <==> Satisfies(FeatureConstraints[i], r)
    {
      OutcomeMatchesTable(r, Features[i]);
      IndexOfListed(i);
    }
  }

  /** The reported errors name exactly the fields whose table entry the record breaks. */
  lemma ErrorsAreViolations(r: Record, e: Entry)
    requires e in FeatureConstraints
    ensures !Satisfies(e, r) <==> exists err :: err in Errors(r) && err.field == e.field
  {
    var k :| 0 <= k < |FeatureConstraints| && FeatureConstraints[k] == e;
    assert e.field == Features[k];
    IndexOfListed(k);
    OutcomeMatchesTable(r, e.field);
    if !Satisfies(e, r) {
      ViolationReported(r, k);
    } else {
      OnlyViolationsReported(r, k);
    }
  }

  /** A field that reports an error puts it in the combined list. */
  lemma ViolationReported(r: Record, k: nat)
    requires k < |Features| && Outcome(r, Features[k]) != []
    ensures exists err :: err in Errors(r) && err.field == Features[k]
  {
    var parts := Parts(r);
    OutcomeNamed(r, Features[k]);
    var err := parts[k][0];
    assert parts[k] in parts;
    InFlatten(parts, err);
  }

  /** A field that reports no error has no error in the combined list. */
  lemma OnlyViolationsReported(r: Record, k: nat)
    requires k < |Features| && Outcome(r, Features[k]) == []
    ensures forall err :: err in Errors(r) ==> err.field != Features[k]
  {
    var parts := Parts(r);
    forall err | err in Errors(r) ensures err.field != Features[k] {
      InFlatten(parts, err);
      var i :| 0 <= i < |Features| && err in parts[i];
      OutcomeNamed(r, Features[i]);
      IndexOfListed(i);
      IndexOfListed(k);
    }
  }

  /** The table constrains every feature once, in declaration order. */
  lemma TableCoversRecord()
    ensures Fields(FeatureConstraints) == Features
  {
  }
}
