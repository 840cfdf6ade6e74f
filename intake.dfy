/** The intake questionnaire: the draft record, its field-level updates, the
    two step guards, the score and the tier sent with the submission, the
    submission payload, and the three-step wizard that owns the draft. */
module Intake {
  import opened JsString

  /** The six scored questions, named after the draft fields that hold them
      (q3 is the number of cats, q5..q9 the behaviour and home questions). */
  datatype Question = Q3 | Q5 | Q6 | Q7 | Q8 | Q9

  /** The value a scored field holds before it is answered. */
  const Unanswered: int := -1

  /** The draft record: six free-text fields and six integer answers. */
  datatype FormData = FormData(
    address: string,
    buildingType: string,
    floorLevel: string,
    windowCount: string,
    doorCount: string,
    heaviestCatWeight: string,
    q3Score: int,
    q5Score: int,
    q6Score: int,
    q7Score: int,
    q8Score: int,
    q9Score: int)

  /** The draft the wizard starts from and returns to on reset. */
  const InitialFormData: FormData :=
    FormData("", "", "", "", "", "",
             Unanswered, Unanswered, Unanswered, Unanswered, Unanswered, Unanswered)

  /** The names of the draft's fields (`keyof FormData`). */
  datatype Field =
    | Address | BuildingType | FloorLevel | WindowCount | DoorCount | HeaviestCatWeight
    | Score(q: Question)

  /** A value handed to a field update: text for the text fields, a number
      for the answers. */
  datatype FieldValue = Text(s: string) | Number(n: int)

  /** The value has the kind its field stores. */
  predicate Fits(f: Field, v: FieldValue) {
    f.Score? <==> v.Number?
  }

  /** The answer stored for question q. */
  function ScoreOf(d: FormData, q: Question): int {
    match q
    case Q3 => d.q3Score
    case Q5 => d.q5Score
    case Q6 => d.q6Score
    case Q7 => d.q7Score
    case Q8 => d.q8Score
    case Q9 => d.q9Score
  }

  /** The value stored in field f. */
  function Get(d: FormData, f: Field): FieldValue {
    match f
    case Address => Text(d.address)
    case BuildingType => Text(d.buildingType)
    case FloorLevel => Text(d.floorLevel)
    case WindowCount => Text(d.windowCount)
    case DoorCount => Text(d.doorCount)
    case HeaviestCatWeight => Text(d.heaviestCatWeight)
    case Score(q) => Number(ScoreOf(d, q))
  }

  /** `{ ...prev, [field]: value }`: the draft with one field replaced. */
  function With(d: FormData, f: Field, v: FieldValue): (r: FormData)
    requires Fits(f, v)
    ensures Get(r, f) == v
    ensures forall g :: g != f ==> Get(r, g) == Get(d, g)
  {
    match f
    case Address => d.(address := v.s)
    case BuildingType => d.(buildingType := v.s)
    case FloorLevel => d.(floorLevel := v.s)
    case WindowCount => d.(windowCount := v.s)
    case DoorCount => d.(doorCount := v.s)
    case HeaviestCatWeight => d.(heaviestCatWeight := v.s)
    case Score(Q3) => d.(q3Score := v.n)
    case Score(Q5) => d.(q5Score := v.n)
    case Score(Q6) => d.(q6Score := v.n)
    case Score(Q7) => d.(q7Score := v.n)
    case Score(Q8) => d.(q8Score := v.n)
    case Score(Q9) => d.(q9Score := v.n)
  }

  /** A draft is determined by the values of its fields. */
  lemma FieldsDetermineDraft(d: FormData, e: FormData)
    requires forall f :: Get(d, f) == Get(e, f)
    ensures d == e
  {
    assert Get(d, Address) == Get(e, Address);
    assert Get(d, BuildingType) == Get(e, BuildingType);
    assert Get(d, FloorLevel) == Get(e, FloorLevel);
    assert Get(d, WindowCount) == Get(e, WindowCount);
    assert Get(d, DoorCount) == Get(e, DoorCount);
    assert Get(d, HeaviestCatWeight) == Get(e, HeaviestCatWeight);
    assert Get(d, Score(Q3)) == Get(e, Score(Q3));
    assert Get(d, Score(Q5)) == Get(e, Score(Q5));
    assert Get(d, Score(Q6)) == Get(e, Score(Q6));
    assert Get(d, Score(Q7)) == Get(e, Score(Q7));
    assert Get(d, Score(Q8)) == Get(e, Score(Q8));
    assert Get(d, Score(Q9)) == Get(e, Score(Q9));
  }

  /** Updates of two different fields commute, so the draft does not depend
      on the order in which the user filled it in. */
  lemma UpdatesCommute(d: FormData, f: Field, v: FieldValue, g: Field, w: FieldValue)
    requires Fits(f, v) && Fits(g, w) && f != g
    ensures With(With(d, f, v), g, w) == With(With(d, g, w), f, v)
  {
    var a, b := With(With(d, f, v), g, w), With(With(d, g, w), f, v);
    forall h ensures Get(a, h) == Get(b, h) {
    }
    FieldsDetermineDraft(a, b);
  }

  /** Writing a field's current value back leaves the draft as it was. */
  lemma UpdateWithSameValue(d: FormData, f: Field)
    ensures Fits(f, Get(d, f)) && With(d, f, Get(d, f)) == d
  {
    var a := With(d, f, Get(d, f));
    forall h ensures Get(a, h) == Get(d, h) {
    }
    FieldsDetermineDraft(a, d);
  }

  // ---------------------------------------------------------------------
  // Options and score

  /** The point values the options of question q carry: the cat-count
      question starts at 1, the other five at 0. */
  function OptionValues(q: Question): (vs: seq<int>)
    ensures |vs| == 4
    ensures forall i, j :: 0 <= i < j < |vs| ==> vs[i] < vs[j]
    ensures forall v :: v in vs <==> IsOption(q, v)
  {
    if q == Q3 then [1, 2, 3, 4] else [0, 1, 2, 3]
  }

  /** v is the value of one of q's options: 1..4 for the cat count, 0..3
      for the other questions. */
  predicate IsOption(q: Question, v: int) {
    if q == Q3 then 1 <= v <= 4 else 0 <= v <= 3
  }

  /** An answer as the options leave it: unanswered or an option value. */
  predicate AnswerOk(q: Question, v: int) {
    v == Unanswered || IsOption(q, v)
  }

  /** The largest value an option of q carries. */
  function MaxOption(q: Question): (m: int)
    ensures IsOption(q, m)
    ensures forall v :: IsOption(q, v) ==> v <= m
  {
    OptionValues(q)[3]
  }

  /** The largest total the options allow. */
  const MaxScore: int :=
    MaxOption(Q3) + MaxOption(Q5) + MaxOption(Q6) + MaxOption(Q7) + MaxOption(Q8) + MaxOption(Q9)

  /** `calculateTotalScore`: the sum of the six stored answers. */
  function TotalScore(d: FormData): int {
    d.q3Score + d.q5Score + d.q6Score + d.q7Score + d.q8Score + d.q9Score
  }

  /** Every answer is unanswered or one of its question's option values:
      the only values the questionnaire's options can store. */
  predicate WellFormed(d: FormData) {
    && AnswerOk(Q3, d.q3Score) && AnswerOk(Q5, d.q5Score) && AnswerOk(Q6, d.q6Score)
    && AnswerOk(Q7, d.q7Score) && AnswerOk(Q8, d.q8Score) && AnswerOk(Q9, d.q9Score)
  }

  /** Every answer is one of its question's option values. */
  predicate AllAnswered(d: FormData) {
    && IsOption(Q3, d.q3Score) && IsOption(Q5, d.q5Score) && IsOption(Q6, d.q6Score)
    && IsOption(Q7, d.q7Score) && IsOption(Q8, d.q8Score) && IsOption(Q9, d.q9Score)
  }

  /** Changing one answer changes the total by the difference; changing a
      text field does not change it. */
  lemma TotalScoreAfterUpdate(d: FormData, f: Field, v: FieldValue)
    requires Fits(f, v)
    ensures f.Score? ==> TotalScore(With(d, f, v)) == TotalScore(d) - ScoreOf(d, f.q) + v.n
    ensures !f.Score? ==> TotalScore(With(d, f, v)) == TotalScore(d)
  {
  }

  /** With every question answered from its options the total lies in
      1..19, and both ends are reached. */
  lemma AnsweredTotalRange(d: FormData)
    requires AllAnswered(d)
    ensures 1 <= TotalScore(d) <= MaxScore && MaxScore == 19
  {
  }

  /** AnsweredTotalRange for every draft at once. */
  lemma AnsweredTotalsBounded()
    ensures forall d :: AllAnswered(d) ==> 1 <= TotalScore(d) <= MaxScore
  {
    forall d | AllAnswered(d) ensures 1 <= TotalScore(d) <= MaxScore {
      AnsweredTotalRange(d);
    }
  }

  /** The bounds of AnsweredTotalRange are attained. */
  lemma TotalRangeTight()
    ensures var lo := InitialFormData.(q3Score := 1, q5Score := 0, q6Score := 0,
                                       q7Score := 0, q8Score := 0, q9Score := 0);
            AllAnswered(lo) && TotalScore(lo) == 1
    ensures var hi := InitialFormData.(q3Score := 4, q5Score := 3, q6Score := 3,
                                       q7Score := 3, q8Score := 3, q9Score := 3);
            AllAnswered(hi) && TotalScore(hi) == MaxScore
  {
  }

  // ---------------------------------------------------------------------
  // Step guards

  /** `isStep1Valid`: the five required text fields are non-empty after
      `trim`; the door count is optional. */
  predicate IsStep1Valid(d: FormData) {
    && Trim(d.address) != ""
    && Trim(d.buildingType) != ""
    && Trim(d.floorLevel) != ""
    && Trim(d.windowCount) != ""
    && Trim(d.heaviestCatWeight) != ""
  }

  /** The first step is valid exactly when none of the five required fields
      is blank, whatever the door count holds. */
  lemma Step1ValidIff(d: FormData, doors: string)
    ensures IsStep1Valid(d) <==>
      && !Blank(d.address) && !Blank(d.buildingType) && !Blank(d.floorLevel)
      && !Blank(d.windowCount) && !Blank(d.heaviestCatWeight)
    ensures IsStep1Valid(d.(doorCount := doors)) == IsStep1Valid(d)
  {
    TrimEmptyIffBlank(d.address);
    TrimEmptyIffBlank(d.buildingType);
    TrimEmptyIffBlank(d.floorLevel);
    TrimEmptyIffBlank(d.windowCount);
    TrimEmptyIffBlank(d.heaviestCatWeight);
  }

  /** `isStep2Valid`: the cat count is at least 1 and the other five answers
      are at least 0. */
  predicate IsStep2Valid(d: FormData) {
    && d.q3Score >= 1
    && d.q5Score >= 0
    && d.q6Score >= 0
    && d.q7Score >= 0
    && d.q8Score >= 0
    && d.q9Score >= 0
  }

  /** On drafts the options can produce, the second step is valid exactly
      when every question is answered. */
  lemma Step2ValidIffAnswered(d: FormData)
    requires WellFormed(d)
    ensures IsStep2Valid(d) <==> AllAnswered(d)
  {
  }

  /** The second step rejects the initial draft, and a fully answered draft
      whose cat count is 0. */
  lemma Step2Rejects(d: FormData)
    requires AllAnswered(d)
    ensures !IsStep2Valid(InitialFormData)
    ensures !IsStep2Valid(d.(q3Score := 0))
    ensures IsStep2Valid(d)
  {
  }

  // ---------------------------------------------------------------------
  // Submission tier and payload

  /** The tier sent with a submission (cut points 6 and 13). */
  datatype SubmitTier = Stable | HighConcern | ExtremeRisk

  /** The inner `getRiskLevel` of the submit handler. */
  function SubmitRiskLevel(score: int): (t: SubmitTier)
    ensures t == Stable <==> score <= 6
    ensures t == HighConcern <==> 6 < score <= 13
    ensures t == ExtremeRisk <==> 13 < score
  {
    if score <= 6 then Stable
    else if score <= 13 then HighConcern
    else ExtremeRisk
  }

  /** The label posted for each tier. */
  function TierLabel(t: SubmitTier): string {
    match t
    case Stable => "穩定防護級別"
    case HighConcern => "高度關注級別"
    case ExtremeRisk => "極高風險/專業顧問級別"
  }

  /** The tiers in ascending order of risk. */
  function SubmitRank(t: SubmitTier): nat {
    match t
    case Stable => 0
    case HighConcern => 1
    case ExtremeRisk => 2
  }

  /** A larger score never yields a lower submission tier. */
  lemma SubmitRiskMonotone(a: int, b: int)
    requires a <= b
    ensures SubmitRank(SubmitRiskLevel(a)) <= SubmitRank(SubmitRiskLevel(b))
  {
  }

  /** Distinct tiers are posted under distinct labels, so the label names
      the tier. */
  lemma TierLabelInjective(t: SubmitTier, u: SubmitTier)
    ensures TierLabel(t) == TierLabel(u) <==> t == u
  {
  }

  /** The flat record posted to the webhook. */
  datatype Payload = Payload(
    timestamp: string,
    address: string,
    floor: string,
    buildingType: string,
    windowCount: string,
    doorCount: string,
    heaviestCatWeight: string,
    q3Score: int,
    q5Score: int,
    q6Score: int,
    q7Score: int,
    q8Score: int,
    q9Score: int,
    totalScore: int,
    riskLevel: string)

  /** The payload built by the submit handler; the timestamp is the locale
      formatted clock reading, taken as a parameter. */
  function BuildPayload(d: FormData, timestamp: string): (p: Payload)
    ensures p.doorCount == (if d.doorCount == "" then "0" else d.doorCount)
    ensures p.doorCount != ""
    ensures p.totalScore == TotalScore(d)
    ensures p.totalScore == p.q3Score + p.q5Score + p.q6Score + p.q7Score + p.q8Score + p.q9Score
    ensures p.riskLevel == TierLabel(SubmitRiskLevel(p.totalScore))
    ensures && p.timestamp == timestamp
            && p.address == d.address && p.floor == d.floorLevel
            && p.buildingType == d.buildingType && p.windowCount == d.windowCount
            && p.heaviestCatWeight == d.heaviestCatWeight
    ensures && p.q3Score == d.q3Score && p.q5Score == d.q5Score && p.q6Score == d.q6Score
            && p.q7Score == d.q7Score && p.q8Score == d.q8Score && p.q9Score == d.q9Score
  {
    var total := TotalScore(d);
    Payload(
      timestamp,
      d.address,
      d.floorLevel,
      d.buildingType,
      d.windowCount,
      if d.doorCount == "" then "0" else d.doorCount,
      d.heaviestCatWeight,
      d.q3Score, d.q5Score, d.q6Score, d.q7Score, d.q8Score, d.q9Score,
      total,
      TierLabel(SubmitRiskLevel(total)))
  }

  /** A payload no sentinel survives in: every answer is an option value and
      the total is in range. */
  predicate Finalized(p: Payload) {
    && IsOption(Q3, p.q3Score) && IsOption(Q5, p.q5Score) && IsOption(Q6, p.q6Score)
    && IsOption(Q7, p.q7Score) && IsOption(Q8, p.q8Score) && IsOption(Q9, p.q9Score)
    && 1 <= p.totalScore <= MaxScore
  }

  /** A draft that passed both guards yields a finalized payload whose
      required text fields are not blank. */
  lemma PayloadOfValidDraft(d: FormData, timestamp: string)
    requires WellFormed(d) && IsStep1Valid(d) && IsStep2Valid(d)
    ensures Finalized(BuildPayload(d, timestamp))
    ensures !Blank(BuildPayload(d, timestamp).address)
  {
    Step2ValidIffAnswered(d);
    AnsweredTotalRange(d);
    Step1ValidIff(d, d.doorCount);
  }

  /** Two worked cases: answers 2,1,0,2,0,1 total 6, the top of the first
      tier; raising the cat count to 4 totals 8, in the second tier. */
  lemma SubmitExamples(d: FormData)
    requires d.q3Score == 2 && d.q5Score == 1 && d.q6Score == 0
    requires d.q7Score == 2 && d.q8Score == 0 && d.q9Score == 1
    ensures TotalScore(d) == 6 && SubmitRiskLevel(TotalScore(d)) == Stable
    ensures TotalScore(d.(q3Score := 4)) == 8
    ensures SubmitRiskLevel(TotalScore(d.(q3Score := 4))) == HighConcern
  {
  }

  // ---------------------------------------------------------------------
  // The wizard

  /** The number of wizard steps: basic information, scored questions,
      confirmation. */
  const TotalSteps: int := 3

  /** The validation notice (toast) a forward move may raise. */
  datatype Notice = NoNotice | BasicInfoMissing | AnswersMissing

  /** The notice raised when a submission ends. */
  datatype SubmitNotice = SubmitSucceeded | SubmitFailed

  /** The fields the wizard shows at a step: the text fields at step 0, the
      scored questions at step 1, none at the confirmation step. */
  predicate ShownAt(f: Field, step: int) {
    if f.Score? then step == 1 else step == 0
  }

  /** What a step's inputs can write: any text into a text field, one of
      the question's option values into a scored field. */
  predicate Admissible(f: Field, v: FieldValue) {
    match f
    case Score(q) => v.Number? && IsOption(q, v.n)
    case _ => v.Text?
  }

  /** What the wizard's own inputs and guards maintain at a step: the
      answers come from the options, a step past the first was entered
      through the first guard and the confirmation step through the second. */
  predicate ConsistentAt(step: int, d: FormData) {
    && 0 <= step < TotalSteps
    && WellFormed(d)
    && (step >= 1 ==> IsStep1Valid(d))
    && (step == 2 ==> IsStep2Valid(d))
  }

  /** An update a step's own inputs can make keeps the wizard consistent:
      the text fields are edited only before the first guard is passed, the
      answers only before the second, and only with option values. */
  lemma AdmissibleUpdateKeepsConsistent(step: int, d: FormData, f: Field, v: FieldValue)
    requires Fits(f, v) && ConsistentAt(step, d) && ShownAt(f, step) && Admissible(f, v)
    ensures ConsistentAt(step, With(d, f, v))
  {
    match f
    case Score(q) =>
      assert step == 1;
      AnswerUpdateKeepsConsistent(d, q, v.n);
    case _ =>
      assert step == 0;
      var e := With(d, f, v);
      assert e.(address := d.address, buildingType := d.buildingType, floorLevel := d.floorLevel,
                windowCount := d.windowCount, doorCount := d.doorCount,
                heaviestCatWeight := d.heaviestCatWeight) == d;
  }

  /** Answering a question with an option value at the question step keeps
      the wizard consistent. */
  lemma AnswerUpdateKeepsConsistent(d: FormData, q: Question, n: int)
    requires ConsistentAt(1, d) && IsOption(q, n)
    ensures ConsistentAt(1, With(d, Score(q), Number(n)))
  {
    var e := With(d, Score(q), Number(n));
    match q
    case Q3 => assert e == d.(q3Score := n);
    case Q5 => assert e == d.(q5Score := n);
    case Q6 => assert e == d.(q6Score := n);
    case Q7 => assert e == d.(q7Score := n);
    case Q8 => assert e == d.(q8Score := n);
    case Q9 => assert e == d.(q9Score := n);
  }

  /** The `AssessmentForm` component's state. */
  class AssessmentForm {
    var step: int
    var formData: FormData
    var isSubmitted: bool
    var isSubmitting: bool

    /** The step counter stays within the three steps. */
    predicate Valid()
      reads this
    {
      0 <= step < TotalSteps
    }

    /** The wizard's state satisfies ConsistentAt. */
    predicate Consistent()
      reads this
    {
      ConsistentAt(step, formData)
    }

    /** The component as mounted. */
    constructor()
      ensures step == 0 && formData == InitialFormData
      ensures !isSubmitted && !isSubmitting
      ensures Valid() && Consistent()
    {
      step := 0;
      formData := InitialFormData;
      isSubmitted := false;
      isSubmitting := false;
    }

    /** `updateFormData`: replaces one field of the draft. An update the
        current step's inputs can make keeps the wizard consistent. */
    method UpdateFormData(f: Field, v: FieldValue)
      requires Fits(f, v)
      modifies this`formData
      ensures formData == With(old(formData), f, v)
      ensures old(Consistent()) && ShownAt(f, step) && Admissible(f, v) ==> Consistent()
    {
      if Consistent() && ShownAt(f, step) && Admissible(f, v) {
        AdmissibleUpdateKeepsConsistent(step, formData, f, v);
      }
      formData := With(formData, f, v);
    }

    /** `handleNext`: blocked with a notice at step 0 when the first guard
        fails and at step 1 when the second fails; otherwise moves forward,
        never past the last step. The draft is not touched. */
    method HandleNext() returns (notice: Notice)
      requires Valid()
      modifies this`step
      ensures Valid()
      ensures old(step) == 0 && !IsStep1Valid(formData) ==>
                step == old(step) && notice == BasicInfoMissing
      ensures old(step) == 1 && !IsStep2Valid(formData) ==>
                step == old(step) && notice == AnswersMissing
      ensures (old(step) == 0 ==> IsStep1Valid(formData)) &&
              (old(step) == 1 ==> IsStep2Valid(formData)) ==>
                notice == NoNotice &&
                step == (if old(step) < TotalSteps - 1 then old(step) + 1 else old(step))
      ensures old(Consistent()) ==> Consistent()
    {
      if step == 0 && !IsStep1Valid(formData) {
        return BasicInfoMissing;
      }
      if step == 1 && !IsStep2Valid(formData) {
        return AnswersMissing;
      }
      if step < TotalSteps - 1 {
        step := step + 1;
      }
      notice := NoNotice;
    }

    /** `handleBack`: one step back, nothing at the first step; the draft
        survives the move. */
    method HandleBack()
      requires Valid()
      modifies this`step
      ensures step == (if old(step) > 0 then old(step) - 1 else old(step))
      ensures Valid()
      ensures old(Consistent()) ==> Consistent()
    {
      if step > 0 {
        step := step - 1;
      }
    }

    /** The synchronous part of `handleSubmit`: marks the submission in
        progress and builds the payload from the current draft. Built at
        the confirmation step of a consistent wizard, it is finalized. */
    method BeginSubmit(timestamp: string) returns (payload: Payload)
      modifies this`isSubmitting
      ensures isSubmitting
      ensures payload == BuildPayload(formData, timestamp)
      ensures Consistent() && step == TotalSteps - 1 ==> Finalized(payload)
    {
      isSubmitting := true;
      payload := BuildPayload(formData, timestamp);
      if Consistent() && step == TotalSteps - 1 {
        PayloadOfValidDraft(formData, timestamp);
      }
    }

    /** The part of `handleSubmit` after the post: `isSubmitted` is set only
        when the post did not throw, and `isSubmitting` is cleared either
        way. */
    method EndSubmit(posted: bool) returns (notice: SubmitNotice)
      modifies this`isSubmitted, this`isSubmitting
      ensures !isSubmitting
      ensures isSubmitted == (if posted then true else old(isSubmitted))
      ensures notice == (if posted then SubmitSucceeded else SubmitFailed)
    {
      if posted {
        notice := SubmitSucceeded;
        isSubmitted := true;
      } else {
        notice := SubmitFailed;
      }
      isSubmitting := false;
    }

    /** `handleSubmit`, with the post's outcome (thrown or not) as the input
        `posted`. The draft and the step are left as they were. */
    method HandleSubmit(timestamp: string, posted: bool) returns (payload: Payload, notice: SubmitNotice)
      modifies this`isSubmitted, this`isSubmitting
      ensures payload == BuildPayload(formData, timestamp)
      ensures Consistent() && step == TotalSteps - 1 ==> Finalized(payload)
      ensures !isSubmitting
      ensures isSubmitted == (if posted then true else old(isSubmitted))
      ensures notice == (if posted then SubmitSucceeded else SubmitFailed)
    {
      payload := BeginSubmit(timestamp);
      notice := EndSubmit(posted);
    }

    /** `handleReset`: back to the initial draft at the first step, with the
        report dismissed. */
    method HandleReset()
      modifies this`formData, this`step, this`isSubmitted
      ensures formData == InitialFormData && step == 0 && !isSubmitted
      ensures Valid() && Consistent()
    {
      formData := InitialFormData;
      step := 0;
      isSubmitted := false;
    }
  }

  /** The answers of the example session: 2,1,0,2,0,1. */
  function WithExampleAnswers(d: FormData): FormData {
    d.(q3Score := 2, q5Score := 1, q6Score := 0, q7Score := 2, q8Score := 0, q9Score := 1)
  }

  /** The first part of a session: type the basic fields of `basics` and
      move on, which the first guard allows when they are filled in. */
  method FillBasics(form: AssessmentForm, basics: FormData)
    requires form.step == 0 && form.formData == InitialFormData
    requires IsStep1Valid(basics)
    modifies form`formData, form`step
    ensures form.step == 1 && form.Consistent()
    ensures form.formData == InitialFormData.(
              address := basics.address, buildingType := basics.buildingType,
              floorLevel := basics.floorLevel, windowCount := basics.windowCount,
              doorCount := basics.doorCount, heaviestCatWeight := basics.heaviestCatWeight)
  {
    form.UpdateFormData(Address, Text(basics.address));
    form.UpdateFormData(BuildingType, Text(basics.buildingType));
    form.UpdateFormData(FloorLevel, Text(basics.floorLevel));
    form.UpdateFormData(WindowCount, Text(basics.windowCount));
    form.UpdateFormData(DoorCount, Text(basics.doorCount));
    form.UpdateFormData(HeaviestCatWeight, Text(basics.heaviestCatWeight));
    var notice := form.HandleNext();
  }

  /** The second part: answer 2,1,0,2,0,1 and move to the confirmation
      step, which the second guard allows. */
  method AnswerExample(form: AssessmentForm)
    requires form.step == 1 && form.Consistent()
    modifies form`formData, form`step
    ensures form.step == 2 && form.Consistent()
    ensures form.formData == WithExampleAnswers(old(form.formData))
  {
    form.UpdateFormData(Score(Q3), Number(2));
    form.UpdateFormData(Score(Q5), Number(1));
    form.UpdateFormData(Score(Q6), Number(0));
    form.UpdateFormData(Score(Q7), Number(2));
    form.UpdateFormData(Score(Q8), Number(0));
    form.UpdateFormData(Score(Q9), Number(1));
    assert form.formData == WithExampleAnswers(old(form.formData));
    var notice := form.HandleNext();
  }

  /** A whole session built from the methods' contracts alone: whatever
      basic information passes the first guard, answering 2,1,0,2,0,1 posts
      the total 6, in the first tier; an empty door count is sent as "0";
      and the report is shown exactly when the post succeeded. */
  method ExampleSession(basics: FormData, timestamp: string, posted: bool)
    returns (payload: Payload, shown: bool)
    requires IsStep1Valid(basics)
    ensures payload.totalScore == 6 && payload.riskLevel == TierLabel(Stable)
    ensures payload.address == basics.address && Finalized(payload)
    ensures basics.doorCount == "" ==> payload.doorCount == "0"
    ensures shown == posted
  {
    var form := new AssessmentForm();
    FillBasics(form, basics);
    AnswerExample(form);
    var notice;
    payload, notice := form.HandleSubmit(timestamp, posted);
    shown := form.isSubmitted;
  }
}
