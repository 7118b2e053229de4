/** How the two prediction services and the generator relate: they carry the same table,
    their validators accept the same values, and every row the generator produces is a
    request both services accept. */
module Agreement {
  import opened Student
  import Api
  import SummativeApi
  import Generator

  /** The three copies of the constraint table are the same table. */
  lemma TablesAgree()
    ensures Api.FeatureConstraints == SummativeApi.FeatureConstraints
    ensures SummativeApi.FeatureConstraints == Generator.FeatureConstraints
  {
  }

  /** Both services accept the same requests, and both then hold the request unchanged. */
  lemma VariantsAcceptSameRecords(r: Record)
    ensures Api.Validate(r).Ok? <==> SummativeApi.Validate(r).Ok?
    ensures Api.Validate(r).Ok? ==> Api.Validate(r) == SummativeApi.Validate(r) == Ok(r)
  {
    Api.ValidateMatchesTable(r);
    SummativeApi.ValidateMatchesTable(r);
  }

  /** Field by field the two services refuse the same fields; for a categorical field they
      report the same error, for a numeric one the documented service reports the broken
      `Field` bound where the deployed one reports its validator's message. */
  lemma VariantsRefuseSameFields(r: Record, f: Feature)
    ensures Api.Outcome(r, f) == [] <==> SummativeApi.Outcome(r, f) == []
    ensures Get(r, f).Str? ==> Api.Outcome(r, f) == SummativeApi.Outcome(r, f)
    ensures Get(r, f).Num? && Api.Outcome(r, f) != [] ==>
      !Api.Outcome(r, f)[0].reason.Message? && SummativeApi.Outcome(r, f)[0].reason.Message?
  {
    match f
    case HoursStudied => case Attendance => case AccessToResources => case ExtracurricularActivities =>
    case SleepHours => case PreviousScores => case InternetAccess => case TeacherQuality =>
    case SchoolType => case PeerInfluence => case LearningDisabilities => case Gender =>
  }

  /** The hand-written validators of the two services agree on every value, message included. */
  lemma ValidatorsAgree(x: real, s: string)
    ensures Api.ValidateHoursStudied(x) == SummativeApi.ValidateHoursStudied(x)
    ensures Api.ValidateAttendance(x) == SummativeApi.ValidateAttendance(x)
    ensures Api.ValidateSleepHours(x) == SummativeApi.ValidateSleepHours(x)
    ensures Api.ValidatePreviousScores(x) == SummativeApi.ValidatePreviousScores(x)
    ensures Api.ValidateAccessToResources(s) == SummativeApi.ValidateAccessToResources(s)
    ensures Api.ValidateExtracurricularActivities(s) == SummativeApi.ValidateExtracurricularActivities(s)
    ensures Api.ValidateInternetAccess(s) == SummativeApi.ValidateInternetAccess(s)
    ensures Api.ValidateTeacherQuality(s) == SummativeApi.ValidateTeacherQuality(s)
    ensures Api.ValidateSchoolType(s) == SummativeApi.ValidateSchoolType(s)
    ensures Api.ValidatePeerInfluence(s) == SummativeApi.ValidatePeerInfluence(s)
    ensures Api.ValidateLearningDisabilities(s) == SummativeApi.ValidateLearningDisabilities(s)
    ensures Api.ValidateGender(s) == SummativeApi.ValidateGender(s)
  {
  }

  /** In the documented service both ends of every range are accepted and values just
      outside are refused. */
  lemma BoundariesAccepted()
    ensures Api.CheckHoursStudied(0.0).Ok? && Api.CheckHoursStudied(50.0).Ok?
    ensures Api.CheckHoursStudied(-0.5).Err? && Api.CheckHoursStudied(50.5).Err?
    ensures Api.CheckAttendance(0.0).Ok? && Api.CheckAttendance(100.0).Ok?
    ensures Api.CheckAttendance(-0.5).Err? && Api.CheckAttendance(100.5).Err?
    ensures Api.CheckPreviousScores(0.0).Ok? && Api.CheckPreviousScores(100.0).Ok?
    ensures Api.CheckPreviousScores(-0.5).Err? && Api.CheckPreviousScores(100.5).Err?
    ensures Api.CheckSleepHours(0.0).Ok? && Api.CheckSleepHours(24.0).Ok?
    ensures Api.CheckSleepHours(-0.5).Err? && Api.CheckSleepHours(24.5).Err?
  {
  }

  /** The same in the deployed service, and a wrongly cased or empty category is refused. */
  lemma SummativeBoundariesAccepted()
    ensures SummativeApi.ValidateHoursStudied(0.0).Ok? && SummativeApi.ValidateHoursStudied(50.0).Ok?
    ensures SummativeApi.ValidateHoursStudied(-0.5).Err? && SummativeApi.ValidateHoursStudied(50.5).Err?
    ensures SummativeApi.ValidateSleepHours(24.0).Ok? && SummativeApi.ValidateSleepHours(24.5).Err?
    ensures SummativeApi.ValidateAccessToResources("low").Err? && SummativeApi.ValidateGender("").Err?
  {
  }

  /** Every row the generator produces satisfies the table, so both services accept it as
      a request. */
  lemma GeneratedRowsAccepted(hours: real, attendance: real, sleep: real, previous: real,
                              access: string, extracurricular: string, internet: string,
                              teacher: string, school: string, peer: string,
                              disabilities: string, gender: string)
    requires 0.0 <= hours <= 50.0
    requires access in ["Low", "Medium", "High"] && teacher in ["Low", "Medium", "High"]
    requires extracurricular in ["Yes", "No"] && internet in ["Yes", "No"]
    requires disabilities in ["Yes", "No"] && school in ["Public", "Private"]
    requires peer in ["Positive", "Negative", "Neutral"] && gender in ["Male", "Female"]
    ensures var r := Generator.SampledRow(hours, attendance, sleep, previous, access,
              extracurricular, internet, teacher, school, peer, disabilities, gender);
      Api.Validate(r).Ok? && SummativeApi.Validate(r).Ok?
  {
    var r := Generator.SampledRow(hours, attendance, sleep, previous, access,
                                  extracurricular, internet, teacher, school, peer, disabilities, gender);
    Generator.SampledRowValid(hours, attendance, sleep, previous, access,
                              extracurricular, internet, teacher, school, peer, disabilities, gender);
    TablesAgree();
    VariantsAcceptSameRecords(r);
    Api.ValidateMatchesTable(r);
  }
}
