/** The record and enumeration shapes of the question store
    (Backend/Questions.py): the two string-valued enumerations, the stored
    `Question` record, the body of a generate request, and the per-question
    shape the text generator is asked to return. */
module Questions {
  import opened Wrappers

  /** `QuestionType` is a `str` enumeration with exactly two members. */
  datatype QuestionType = Technical | Behavioral

  /** `QuestionDifficulty` is a `str` enumeration with exactly three members. */
  datatype QuestionDifficulty = Easy | Medium | Hard

  /** The wire value of each question type. */
  function TypeName(t: QuestionType): (r: string)
    ensures t.Technical? <==> r == "technical"
    ensures t.Behavioral? <==> r == "behavioral"
  {
    match t
    case Technical => "technical"
    case Behavioral => "behavioral"
  }

  /** Validation of an incoming string against `QuestionType`: only the
      member values are accepted, compared exactly (no case folding). */
  function ParseType(s: string): (r: Option<QuestionType>)
    ensures r.Some? <==> (s == "technical" || s == "behavioral")
    ensures r.Some? ==> TypeName(r.value) == s
  {
    if s == "technical" then Some(Technical)
    else if s == "behavioral" then Some(Behavioral)
    else None
  }

  /** The wire value of each difficulty. */
  function DifficultyName(d: QuestionDifficulty): (r: string)
    ensures d.Easy? <==> r == "easy"
    ensures d.Medium? <==> r == "medium"
    ensures d.Hard? <==> r == "hard"
  {
    match d
    case Easy => "easy"
    case Medium => "medium"
    case Hard => "hard"
  }

  /** Validation of an incoming string against `QuestionDifficulty`. */
  function ParseDifficulty(s: string): (r: Option<QuestionDifficulty>)
    ensures r.Some? <==> (s == "easy" || s == "medium" || s == "hard")
    ensures r.Some? ==> DifficultyName(r.value) == s
  {
    if s == "easy" then Some(Easy)
    else if s == "medium" then Some(Medium)
    else if s == "hard" then Some(Hard)
    else None
  }

  /** Every question type survives the trip to its wire value and back, and
      distinct types have distinct wire values. */
  lemma TypeNameRoundTrip(t: QuestionType, u: QuestionType)
    ensures ParseType(TypeName(t)) == Some(t)
    ensures TypeName(t) == TypeName(u) ==> t == u
  {
  }

  /** Every difficulty survives the trip to its wire value and back, and
      distinct difficulties have distinct wire values. */
  lemma DifficultyNameRoundTrip(d: QuestionDifficulty, e: QuestionDifficulty)
    ensures ParseDifficulty(DifficultyName(d)) == Some(d)
    ensures DifficultyName(d) == DifficultyName(e) ==> d == e
  {
  }

  /** A stored question. `id`, `difficulty` and `flagged` are all optional;
      no invariant ties them together. */
  datatype Question = Question(
    id: Option<string>,
    jobTitle: string,
    questionType: QuestionType,
    question: string,
    difficulty: Option<QuestionDifficulty>,
    flagged: Option<bool>)

  /** A question built without `difficulty` or `flagged`, which take their
      declared defaults: no difficulty, not flagged. */
  function NewQuestion(id: Option<string>, jobTitle: string, questionType: QuestionType, question: string): (q: Question)
    ensures q.difficulty.None?
    ensures q.flagged == Some(false)
    ensures q.id == id && q.jobTitle == jobTitle
    ensures q.questionType == questionType && q.question == question
  {
    Question(id, jobTitle, questionType, question, None, Some(false))
  }

  /** Python's `q.id == question_id` for a string `question_id`: a record
      whose id is `None` never matches. */
  function HasId(q: Question, questionId: string): (b: bool)
    ensures b ==> q.id.Some? && q.id.value == questionId
    ensures q.id.Some? && q.id.value == questionId ==> b
  {
    q.id == Some(questionId)
  }

  /** A record without an id matches no string id at all. */
  lemma MissingIdNeverMatches(q: Question, questionId: string)
    requires q.id.None?
    ensures !HasId(q, questionId)
  {
  }

  /** The body of `POST /api/questions/generate`. The two counts are
      optional, unbounded integers. */
  datatype GenerateRequest = GenerateRequest(
    jobTitle: string,
    numTechnical: Option<int>,
    numBehavioral: Option<int>)

  /** A request that gives only `job_title`: both counts default to 1. */
  function DefaultGenerateRequest(jobTitle: string): (r: GenerateRequest)
    ensures r.jobTitle == jobTitle
    ensures r.numTechnical == Some(1) && r.numBehavioral == Some(1)
  {
    GenerateRequest(jobTitle, Some(1), Some(1))
  }

  /** The per-question shape the text generator is asked to follow (its
      response schema): only title, type and text, with no id, difficulty or
      flag. The generator's reply is raw text that nothing decodes. */
  datatype QuestionGenerateResponse = QuestionGenerateResponse(
    jobTitle: string,
    questionType: QuestionType,
    question: string)
}
