/** The synthetic data generator: sampled feature columns clipped into range, and the
    `Exam_Score` label, a weighted sum of the numeric features plus per-category offsets,
    the base 60 and a noise term, clipped into [0, 100]. Random sampling is not modelled:
    the sampled values and the noise are parameters. */
module Generator {
  import opened Student

  /** The generator's own copy of the constraint table. */
  const FeatureConstraints: seq<Entry> := [
    Entry(HoursStudied, Numerical(0.0, 50.0)),
    Entry(Attendance, Numerical(0.0, 100.0)),
    Entry(AccessToResources, Categorical(["Low", "Medium", "High"])),
    Entry(ExtracurricularActivities, Categorical(["Yes", "No"])),
    Entry(SleepHours, Numerical(0.0, 24.0)),
    Entry(PreviousScores, Numerical(0.0, 100.0)),
    Entry(InternetAccess, Categorical(["Yes", "No"])),
    Entry(TeacherQuality, Categorical(["Low", "Medium", "High"])),
    Entry(SchoolType, Categorical(["Public", "Private"])),
    Entry(PeerInfluence, Categorical(["Positive", "Negative", "Neutral"])),
    Entry(LearningDisabilities, Categorical(["Yes", "No"])),
    Entry(Gender, Categorical(["Male", "Female"]))
  ]

  // ---- clip

  /** numpy's `clip(lo, hi)` on one value: `min(max(x, lo), hi)`. */
  function Clip(x: real, lo: real, hi: real): (y: real)
    ensures lo <= hi ==> lo <= y <= hi
    ensures lo <= x <= hi ==> y == x
    ensures x < lo ==> y == (if lo <= hi then lo else hi)
    ensures hi < x ==> y == hi
  {
    var m := if x < lo then lo else x;
    if m > hi then hi else m
  }

  lemma ClipIdempotent(x: real, lo: real, hi: real)
    requires lo <= hi
    ensures Clip(Clip(x, lo, hi), lo, hi) == Clip(x, lo, hi)
  {
  }

  lemma ClipMonotone(x: real, y: real, lo: real, hi: real)
    requires x <= y
    ensures Clip(x, lo, hi) <= Clip(y, lo, hi)
  {
  }

  // ---- sampled rows

  /** One row of the generated frame: the uniform `Hours_Studied` sample is taken as it
      is, the normal samples for `Attendance`, `Sleep_Hours` and `Previous_Scores` are
      clipped into their ranges, and the categorical choices are taken as they are. */
  function SampledRow(hours: real, attendance: real, sleep: real, previous: real,
                      access: string, extracurricular: string, internet: string,
                      teacher: string, school: string, peer: string,
                      disabilities: string, gender: string): (r: Record)
    ensures 0.0 <= r.attendance <= 100.0 && 0.0 <= r.sleepHours <= 24.0
    ensures 0.0 <= r.previousScores <= 100.0
    ensures 0.0 <= attendance <= 100.0 ==> r.attendance == attendance
    ensures 0.0 <= sleep <= 24.0 ==> r.sleepHours == sleep
    ensures 0.0 <= previous <= 100.0 ==> r.previousScores == previous
  {
    Record(hours, Clip(attendance, 0.0, 100.0), access, extracurricular,
           Clip(sleep, 0.0, 24.0), Clip(previous, 0.0, 100.0), internet,
           teacher, school, peer, disabilities, gender)
  }

  /** Whatever the normal samples were, a row built from an in-range hours sample and
      categorical values drawn from the listed choices satisfies the whole table. */
  lemma SampledRowValid(hours: real, attendance: real, sleep: real, previous: real,
                        access: string, extracurricular: string, internet: string,
                        teacher: string, school: string, peer: string,
                        disabilities: string, gender: string)
    requires 0.0 <= hours <= 50.0
    requires access in ["Low", "Medium", "High"] && teacher in ["Low", "Medium", "High"]
    requires extracurricular in ["Yes", "No"] && internet in ["Yes", "No"]
    requires disabilities in ["Yes", "No"] && school in ["Public", "Private"]
    requires peer in ["Positive", "Negative", "Neutral"] && gender in ["Male", "Female"]
    ensures Valid(FeatureConstraints, SampledRow(hours, attendance, sleep, previous, access,
              extracurricular, internet, teacher, school, peer, disabilities, gender))
  {
    var r := SampledRow(hours, attendance, sleep, previous, access,
                        extracurricular, internet, teacher, school, peer, disabilities, gender);
    ValidAt(FeatureConstraints, r);
    forall i | 0 <= i < |FeatureConstraints| ensures Satisfies(FeatureConstraints[i], r) {
      TableFields(i);
      EntryAdmits(r, i);
    }
  }

  /** Entry `i` of the table admits the row when the row's value for that entry's feature
      is in range or listed. */
  lemma EntryAdmits(r: Record, i: nat)
    requires i < |FeatureConstraints| && FeatureConstraints[i].field == Features[i]
    requires 0.0 <= r.hoursStudied <= 50.0 && 0.0 <= r.attendance <= 100.0
    requires 0.0 <= r.sleepHours <= 24.0 && 0.0 <= r.previousScores <= 100.0
    requires r.accessToResources in ["Low", "Medium", "High"] && r.teacherQuality in ["Low", "Medium", "High"]
    requires r.extracurricularActivities in ["Yes", "No"] && r.internetAccess in ["Yes", "No"]
    requires r.learningDisabilities in ["Yes", "No"] && r.schoolType in ["Public", "Private"]
    requires r.peerInfluence in ["Positive", "Negative", "Neutral"] && r.gender in ["Male", "Female"]
    ensures Satisfies(FeatureConstraints[i], r)
  {
    match Features[i]
    case HoursStudied => case Attendance => case AccessToResources => case ExtracurricularActivities =>
    case SleepHours => case PreviousScores => case InternetAccess => case TeacherQuality =>
    case SchoolType => case PeerInfluence => case LearningDisabilities => case Gender =>
  }

  // ---- the label formula

  /** The category-to-offset dictionaries handed to `Series.map`. */
  const AccessOffsets: map<string, int> := map["Low" := -5, "Medium" := 0, "High" := 10]
  const TeacherOffsets: map<string, int> := map["Low" := -3, "Medium" := 0, "High" := 5]
  const InternetOffsets: map<string, int> := map["Yes" := 5, "No" := -3]
  const ExtracurricularOffsets: map<string, int> := map["Yes" := 3, "No" := -2]
  const SchoolOffsets: map<string, int> := map["Private" := 5, "Public" := -3]
  const PeerOffsets: map<string, int> := map["Positive" := 5, "Negative" := -3, "Neutral" := 0]
  const DisabilityOffsets: map<string, int> := map["Yes" := -5, "No" := 0]
  const GenderOffsets: map<string, int> := map["Male" := 0, "Female" := 0]

  /** The offset dictionary applied to a feature's column, if the formula maps that column. */
  function OffsetMap(f: Feature): Option<map<string, int>>
  {
    match f
    case AccessToResources => Some(AccessOffsets)
    case TeacherQuality => Some(TeacherOffsets)
    case InternetAccess => Some(InternetOffsets)
    case ExtracurricularActivities => Some(ExtracurricularOffsets)
    case SchoolType => Some(SchoolOffsets)
    case PeerInfluence => Some(PeerOffsets)
    case LearningDisabilities => Some(DisabilityOffsets)
    case Gender => Some(GenderOffsets)
    case _ => None
  }

  /** `Series.map` finds an offset for every categorical value of the row; a value the
      dictionary lacks maps to NaN. */
  predicate HasOffsets(r: Record)
  {
    && r.accessToResources in AccessOffsets
    && r.teacherQuality in TeacherOffsets
    && r.internetAccess in InternetOffsets
    && r.extracurricularActivities in ExtracurricularOffsets
    && r.schoolType in SchoolOffsets
    && r.peerInfluence in PeerOffsets
    && r.learningDisabilities in DisabilityOffsets
    && r.gender in GenderOffsets
  }

  /** The weighted numeric part of the formula. */
  function NumericPart(r: Record): real
  {
    0.4 * (r.hoursStudied / 50.0) * 100.0 +
    0.3 * (r.attendance / 100.0) * 100.0 +
    0.2 * (r.previousScores / 100.0) * 100.0 +
    0.1 * (r.sleepHours / 24.0) * 100.0
  }

  /** The sum of the eight categorical offsets. */
  function CategoricalPart(r: Record): int
    requires HasOffsets(r)
  {
    AccessOffsets[r.accessToResources] +
    TeacherOffsets[r.teacherQuality] +
    InternetOffsets[r.internetAccess] +
    ExtracurricularOffsets[r.extracurricularActivities] +
    SchoolOffsets[r.schoolType] +
    PeerOffsets[r.peerInfluence] +
    DisabilityOffsets[r.learningDisabilities] +
    GenderOffsets[r.gender]
  }

  /** The label before clipping; `None` stands for NaN, which a missing offset produces. */
  function RawScore(r: Record, noise: real): (s: Option<real>)
    ensures s.Some? <==> HasOffsets(r)
  {
    if HasOffsets(r) then Some(NumericPart(r) + CategoricalPart(r) as real + 60.0 + noise)
    else None
  }

  /** The `Exam_Score` of one row: the raw label clipped into [0, 100]. NaN stays NaN
      through `clip`, so a row without offsets has no score. For any noise the score
      lies in [0, 100]. */
  function ExamScore(r: Record, noise: real): (s: Option<real>)
    ensures s.Some? <==> HasOffsets(r)
    ensures s.Some? ==> 0.0 <= s.value <= 100.0
    ensures s.Some? && 0.0 <= RawScore(r, noise).value <= 100.0 ==> s.value == RawScore(r, noise).value
  {
    match RawScore(r, noise)
    case None => None
    case Some(x) => Some(Clip(x, 0.0, 100.0))
  }

  // ---- properties of the formula

  /** The table lists the features in declaration order. */
  lemma TableFields(i: nat)
    requires i < |FeatureConstraints|
    ensures FeatureConstraints[i].field == Features[i]
    ensures Index(FeatureConstraints[i].field) == i
  {
    IndexOfListed(i);
  }

  /** Each offset dictionary has an offset for exactly the values the table lists for its
      feature, and the numeric features have no dictionary. */
  lemma OffsetMapMatchesTable(f: Feature)
    ensures FeatureConstraints[Index(f)].constraint.Categorical? <==> OffsetMap(f).Some?
    ensures OffsetMap(f).Some? ==>
      forall v :: v in OffsetMap(f).value <==> v in FeatureConstraints[Index(f)].constraint.values
  {
    match f
    case HoursStudied => case Attendance => case AccessToResources => case ExtracurricularActivities =>
    case SleepHours => case PreviousScores => case InternetAccess => case TeacherQuality =>
    case SchoolType => case PeerInfluence => case LearningDisabilities => case Gender =>
  }

  /** Every offset is found exactly when every categorical value is one the table lists. */
  lemma OffsetsTotal(r: Record)
    ensures HasOffsets(r) <==>
      forall i :: 0 <= i < |FeatureConstraints| && FeatureConstraints[i].constraint.Categorical?
        ==> Satisfies(FeatureConstraints[i], r)
  {
    if HasOffsets(r) {
      forall i | 0 <= i < |FeatureConstraints| && FeatureConstraints[i].constraint.Categorical?
        ensures Satisfies(FeatureConstraints[i], r)
      {
        TableFields(i);
        OffsetCovers(r, FeatureConstraints[i].field);
      }
    } else {
      var f := MissingOffset(r);
      OffsetCovers(r, f);
    }
  }

  /** The value a row holds for a categorical feature is in the table's list exactly when
      that feature's dictionary has an offset for it. */
  lemma OffsetCovers(r: Record, f: Feature)
    requires OffsetMap(f).Some?
    ensures FeatureConstraints[Index(f)].constraint.Categorical? && Get(r, f).Str?
    ensures Satisfies(FeatureConstraints[Index(f)], r) <==> Get(r, f).s in OffsetMap(f).value
  {
    OffsetMapMatchesTable(f);
  }

  /** A categorical feature whose dictionary lacks the row's value. */
  function MissingOffset(r: Record): (f: Feature)
    requires !HasOffsets(r)
    ensures OffsetMap(f).Some? && Get(r, f).Str? && Get(r, f).s !in OffsetMap(f).value
  {
    if r.accessToResources !in AccessOffsets then AccessToResources
    else if r.teacherQuality !in TeacherOffsets then TeacherQuality
    else if r.internetAccess !in InternetOffsets then InternetAccess
    else if r.extracurricularActivities !in ExtracurricularOffsets then ExtracurricularActivities
    else if r.schoolType !in SchoolOffsets then SchoolType
    else if r.peerInfluence !in PeerOffsets then PeerInfluence
    else if r.learningDisabilities !in DisabilityOffsets then LearningDisabilities
    else Gender
  }

  /** A row that satisfies the table always has a score. */
  lemma ValidRowScored(r: Record, noise: real)
    requires Valid(FeatureConstraints, r)
    ensures ExamScore(r, noise).Some?
  {
    ValidAt(FeatureConstraints, r);
    OffsetsTotal(r);
  }

  /** The categorical offsets add up to between -24 (every worst category) and 33 (every
      best one). */
  lemma CategoricalPartBounds(r: Record)
    requires HasOffsets(r)
    ensures -24 <= CategoricalPart(r) <= 33
  {
  }

  /** For in-range numeric features the weighted part is between 0 and 100: the weights
      0.4, 0.3, 0.2 and 0.1 add up to 1 and each feature is scaled by its maximum. */
  lemma NumericPartBounds(r: Record)
    requires 0.0 <= r.hoursStudied <= 50.0 && 0.0 <= r.attendance <= 100.0
    requires 0.0 <= r.sleepHours <= 24.0 && 0.0 <= r.previousScores <= 100.0
    ensures 0.0 <= NumericPart(r) <= 100.0
  {
  }

  /** The label does not depend on gender: both genders map to the offset 0. */
  lemma GenderIndependent(r: Record, g: string, noise: real)
    requires g in GenderOffsets && r.gender in GenderOffsets
    ensures ExamScore(r.(gender := g), noise) == ExamScore(r, noise)
  {
    if HasOffsets(r) {
      assert CategoricalPart(r.(gender := g)) == CategoricalPart(r);
    }
  }

  /** Raising any of the four numeric features, with the categories and the noise fixed,
      never lowers the label, before or after clipping: every weight is positive. */
  lemma ScoreMonotone(r: Record, r': Record, noise: real)
    requires HasOffsets(r)
    requires r.hoursStudied <= r'.hoursStudied && r.attendance <= r'.attendance
    requires r.previousScores <= r'.previousScores && r.sleepHours <= r'.sleepHours
    requires r' == r.(hoursStudied := r'.hoursStudied, attendance := r'.attendance,
                      previousScores := r'.previousScores, sleepHours := r'.sleepHours)
    ensures RawScore(r, noise).value <= RawScore(r', noise).value
    ensures ExamScore(r, noise).value <= ExamScore(r', noise).value
  {
    assert CategoricalPart(r') == CategoricalPart(r);
    ClipMonotone(RawScore(r, noise).value, RawScore(r', noise).value, 0.0, 100.0);
  }

  /** For a row that satisfies the table the unclipped label lies within 36 and 193 of the
      noise, so without noise the lower clip never applies and the upper one can. */
  lemma RawScoreRange(r: Record, noise: real)
    requires Valid(FeatureConstraints, r)
    ensures RawScore(r, noise).Some?
    ensures 36.0 + noise <= RawScore(r, noise).value <= 193.0 + noise
  {
    ValidAt(FeatureConstraints, r);
    OffsetsTotal(r);
    assert Satisfies(FeatureConstraints[0], r) && Satisfies(FeatureConstraints[1], r);
    assert Satisfies(FeatureConstraints[4], r) && Satisfies(FeatureConstraints[5], r);
    NumericPartBounds(r);
    CategoricalPartBounds(r);
  }

  // ---- the data frame

  /** The `data` dictionary: one column per feature, the numeric ones as sampled. */
  datatype Columns = Columns(
    hours: seq<real>, attendance: seq<real>, sleep: seq<real>, previous: seq<real>,
    access: seq<string>, extracurricular: seq<string>, internet: seq<string>,
    teacher: seq<string>, school: seq<string>, peer: seq<string>,
    disabilities: seq<string>, gender: seq<string>)

  /** Every column has `n` entries, as `pd.DataFrame` requires of its columns. */
  predicate Aligned(c: Columns, n: nat)
  {
    && |c.hours| == n && |c.attendance| == n && |c.sleep| == n && |c.previous| == n
    && |c.access| == n && |c.extracurricular| == n && |c.internet| == n
    && |c.teacher| == n && |c.school| == n && |c.peer| == n
    && |c.disabilities| == n && |c.gender| == n
  }

  /** Row `i` of the frame built from the columns. */
  function RowAt(c: Columns, n: nat, i: nat): Record
    requires Aligned(c, n) && i < n
  {
    SampledRow(c.hours[i], c.attendance[i], c.sleep[i], c.previous[i], c.access[i],
               c.extracurricular[i], c.internet[i], c.teacher[i], c.school[i], c.peer[i],
               c.disabilities[i], c.gender[i])
  }

  /** The `Exam_Score` column, row by row. */
  function ScoreColumn(rows: seq<Record>, noise: seq<real>): (scores: seq<Option<real>>)
    requires |noise| == |rows|
    ensures |scores| == |rows|
  {
    seq(|rows|, i requires 0 <= i < |rows| => ExamScore(rows[i], noise[i]))
  }

  /** The generated frame: its rows, and the `Exam_Score` column once it is assigned. */
  class Frame {
    var rows: seq<Record>
    var examScore: Option<seq<Option<real>>>

    /** `pd.DataFrame(data)` on the sampled columns, with the clipping the sampling applied. */
    constructor (c: Columns, n: nat)
      requires Aligned(c, n)
      ensures |rows| == n && forall i :: 0 <= i < n ==> rows[i] == RowAt(c, n, i)
      ensures examScore == None
    {
      var acc: seq<Record> := [];
      var i := 0;
      while i < n
        invariant 0 <= i <= n && |acc| == i
        invariant forall j :: 0 <= j < i ==> acc[j] == RowAt(c, n, j)
      {
        acc := acc + [RowAt(c, n, i)];
        i := i + 1;
      }
      rows := acc;
      examScore := None;
    }

    /** `df['Exam_Score'] = exam_score`: the label of every row, with that row's noise. */
    method AssignExamScore(noise: seq<real>)
      requires |noise| == |rows|
      modifies this
      ensures rows == old(rows)
      ensures examScore == Some(ScoreColumn(rows, noise))
    {
      var scores: seq<Option<real>> := [];
      var i := 0;
      while i < |rows|
        invariant 0 <= i <= |rows| && |scores| == i
        invariant forall j :: 0 <= j < i ==> scores[j] == ExamScore(rows[j], noise[j])
      {
        scores := scores + [ExamScore(rows[i], noise[i])];
        i := i + 1;
      }
      assert scores == ScoreColumn(rows, noise);
      examScore := Some(scores);
    }
  }

  /** A frame built from in-range hours and listed categories satisfies the table row by
      row, and after the label is assigned every score is present and in [0, 100]. */
  lemma GeneratedFrameScored(c: Columns, n: nat, noise: seq<real>, i: nat)
    requires Aligned(c, n) && |noise| == n && i < n
    requires 0.0 <= c.hours[i] <= 50.0
    requires c.access[i] in ["Low", "Medium", "High"] && c.teacher[i] in ["Low", "Medium", "High"]
    requires c.extracurricular[i] in ["Yes", "No"] && c.internet[i] in ["Yes", "No"]
    requires c.disabilities[i] in ["Yes", "No"] && c.school[i] in ["Public", "Private"]
    requires c.peer[i] in ["Positive", "Negative", "Neutral"] && c.gender[i] in ["Male", "Female"]
    ensures Valid(FeatureConstraints, RowAt(c, n, i))
    ensures ScoreColumn(seq(n, j requires 0 <= j < n => RowAt(c, n, j)), noise)[i].Some?
    ensures 0.0 <= ScoreColumn(seq(n, j requires 0 <= j < n => RowAt(c, n, j)), noise)[i].value <= 100.0
  {
    SampledRowValid(c.hours[i], c.attendance[i], c.sleep[i], c.previous[i], c.access[i],
                    c.extracurricular[i], c.internet[i], c.teacher[i], c.school[i], c.peer[i],
                    c.disabilities[i], c.gender[i]);
    ValidRowScored(RowAt(c, n, i), noise[i]);
  }
}
