/** The student record shared by the prediction services and the data generator,
    the shape of the `feature_constraints` table, and the table-driven validity check. */
module Student {

  datatype Option<T> = None | Some(value: T)

  /** A validator either hands back a value or raises an error. */
  datatype Result<T, E> = Ok(value: T) | Err(error: E)

  /** One request body / one generated row: four numeric and eight categorical features,
      in the order the `StudentInput` class declares them. */
  datatype Record = Record(
    hoursStudied: real,
    attendance: real,
    accessToResources: string,
    extracurricularActivities: string,
    sleepHours: real,
    previousScores: real,
    internetAccess: string,
    teacherQuality: string,
    schoolType: string,
    peerInfluence: string,
    learningDisabilities: string,
    gender: string)

  /** The twelve features, named as the request schema and the table name them. */
  datatype Feature =
    | HoursStudied | Attendance | AccessToResources | ExtracurricularActivities
    | SleepHours | PreviousScores | InternetAccess | TeacherQuality
    | SchoolType | PeerInfluence | LearningDisabilities | Gender

  /** The features in the order `StudentInput` declares them. */
  const Features: seq<Feature> := [
    HoursStudied, Attendance, AccessToResources, ExtracurricularActivities,
    SleepHours, PreviousScores, InternetAccess, TeacherQuality,
    SchoolType, PeerInfluence, LearningDisabilities, Gender]

  /** The external (JSON and table) name of a feature. */
  function Name(f: Feature): string
  {
    match f
    case HoursStudied => "Hours_Studied"
    case Attendance => "Attendance"
    case AccessToResources => "Access_to_Resources"
    case ExtracurricularActivities => "Extracurricular_Activities"
    case SleepHours => "Sleep_Hours"
    case PreviousScores => "Previous_Scores"
    case InternetAccess => "Internet_Access"
    case TeacherQuality => "Teacher_Quality"
    case SchoolType => "School_Type"
    case PeerInfluence => "Peer_Influence"
    case LearningDisabilities => "Learning_Disabilities"
    case Gender => "Gender"
  }

  /** The position of a feature in declaration order. */
  function Index(f: Feature): (i: nat)
    ensures i < |Features| && Features[i] == f
  {
    match f
    case HoursStudied => 0
    case Attendance => 1
    case AccessToResources => 2
    case ExtracurricularActivities => 3
    case SleepHours => 4
    case PreviousScores => 5
    case InternetAccess => 6
    case TeacherQuality => 7
    case SchoolType => 8
    case PeerInfluence => 9
    case LearningDisabilities => 10
    case Gender => 11
  }

  /** Each feature is listed once, so its position is unique. */
  lemma IndexOfListed(i: nat)
    requires i < |Features|
    ensures Index(Features[i]) == i
  {
  }

  /** A feature value as it appears in the table-driven check. */
  datatype Value = Num(x: real) | Str(s: string)

  /** An entry of `feature_constraints`: an inclusive numeric range or an enumeration. */
  datatype Constraint = Numerical(min: real, max: real) | Categorical(values: seq<string>)

  datatype Entry = Entry(field: Feature, constraint: Constraint)

  /** The value a record holds for a feature: a number for the four numeric
      features, a string for the eight categorical ones. */
  function Get(r: Record, f: Feature): (v: Value)
    ensures v.Num? <==> f in {HoursStudied, Attendance, SleepHours, PreviousScores}
  {
    match f
    case HoursStudied => Num(r.hoursStudied)
    case Attendance => Num(r.attendance)
    case AccessToResources => Str(r.accessToResources)
    case ExtracurricularActivities => Str(r.extracurricularActivities)
    case SleepHours => Num(r.sleepHours)
    case PreviousScores => Num(r.previousScores)
    case InternetAccess => Str(r.internetAccess)
    case TeacherQuality => Str(r.teacherQuality)
    case SchoolType => Str(r.schoolType)
    case PeerInfluence => Str(r.peerInfluence)
    case LearningDisabilities => Str(r.learningDisabilities)
    case Gender => Str(r.gender)
  }

  /** A numeric range admits exactly the numbers between its bounds, both included;
      an enumeration admits exactly its listed strings. A value of the wrong kind is refused. */
  predicate Admits(c: Constraint, v: Value)
  {
    match (c, v)
    case (Numerical(lo, hi), Num(x)) => lo <= x <= hi
    case (Categorical(vs), Str(s)) => s in vs
    case _ => false
  }

  predicate Satisfies(e: Entry, r: Record)
  {
    Admits(e.constraint, Get(r, e.field))
  }

  /** The table-driven check: the record satisfies every entry of the table. */
  predicate Valid(table: seq<Entry>, r: Record)
  {
    forall e :: e in table ==> Satisfies(e, r)
  }

  /** The table-driven check, entry by entry. */
  lemma ValidAt(table: seq<Entry>, r: Record)
    ensures Valid(table, r) <==> forall i :: 0 <= i < |table| ==> Satisfies(table[i], r)
  {
  }

  /** The features a table constrains, in table order. */
  function Fields(table: seq<Entry>): seq<Feature>
  {
    seq(|table|, i requires 0 <= i < |table| => table[i].field)
  }

  /** Why a field was refused: the text of the `ValueError` a validator raised,
      or a `Field(ge=..., le=...)` bound the value broke. */
  datatype Reason = Message(text: string) | BelowGe(ge: real) | AboveLe(le: real)

  /** One entry of a validation error: the offending field and the reason. */
  datatype FieldError = FieldError(field: Feature, reason: Reason)

  /** An error names its field: a validator's message starts with the field's name. */
  predicate NamesField(e: FieldError)
  {
    e.reason.Message? ==> Name(e.field) <= e.reason.text
  }

  /** Attaches the field name to a validator's `ValueError`, as the validation layer does. */
  function Raised<T>(field: Feature, res: Result<T, string>): Result<T, FieldError>
  {
    match res
    case Ok(x) => Ok(x)
    case Err(m) => Err(FieldError(field, Message(m)))
  }

  /** A validator whose messages start with the field's name contributes, once its error
      is attached to the field, only messages about that field which name it. */
  lemma RaisedNamed<T>(field: Feature, res: Result<T, string>)
    requires res.Err? ==> Name(field) <= res.error
    ensures forall e :: e in Issues(Raised(field, res)) ==>
      e.field == field && e.reason.Message? && NamesField(e)
  {
  }

  /** The errors one field contributes to the combined validation error. */
  function Issues<T>(res: Result<T, FieldError>): (errs: seq<FieldError>)
    ensures |errs| <= 1
    ensures errs == [] <==> res.Ok?
  {
    if res.Ok? then [] else [res.error]
  }

  /** Every error in `errs` names its field. */
  predicate AllNamed(errs: seq<FieldError>)
  {
    forall e :: e in errs ==> NamesField(e)
  }

  /** The per-field error lists joined in field order. */
  function Flatten<T>(parts: seq<seq<T>>): seq<T>
  {
    if parts == [] then [] else parts[0] + Flatten(parts[1..])
  }

  /** Joining the per-field lists loses and invents nothing. */
  lemma {:induction false} InFlatten<T>(parts: seq<seq<T>>, x: T)
    ensures x in Flatten(parts) <==> exists p :: p in parts && x in p
  {
    if parts != [] {
      InFlatten(parts[1..], x);
      assert forall p :: p in parts <==> p == parts[0] || p in parts[1..];
    }
  }

  /** The join is empty exactly when every part is. */
  lemma {:induction false} FlattenEmpty<T>(parts: seq<seq<T>>)
    ensures Flatten(parts) == [] <==> forall i :: 0 <= i < |parts| ==> parts[i] == []
  {
    if parts != [] {
      FlattenEmpty(parts[1..]);
      assert |Flatten(parts)| == |parts[0]| + |Flatten(parts[1..])|;
      assert forall i :: 1 <= i < |parts| ==> parts[i] == parts[1..][i - 1];
    }
  }
}
