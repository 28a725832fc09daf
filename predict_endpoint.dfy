/**
  The `POST /api/ml/predict` handler: read the body, run the gate, call the
  model, and, for a logged-in user, save the assessment and its
  recommendations on a best-effort basis before answering.  The database is
  a `Store` whose inserts may succeed, return an error, or throw, as the
  database decides.
 */
module PredictEndpoint {
  import opened Wrappers
  import opened MoodEngine

  type UserId = string

  /** The request body as `request.json()` and the destructuring of its four
      fields see it.  A JSON value that is not an object (an array, a
      number, a string) has no such keys and arrives as four `NotNumber`s. */
  datatype RequestBody =
    | Unparsable                       // `request.json()` throws
    | JsonNull                         // destructuring `null` throws
    | Fields(calorie: Field, protein: Field, fat: Field, carb: Field)

  datatype ResponseBody = Prediction(result: MLResponse) | Error(message: string)

  datatype Response = Response(status: int, body: ResponseBody)

  const InternalErrorMessage: string := "Internal server error during ML prediction"

  function ServerError(): Response {
    Response(500, Error(InternalErrorMessage))
  }

  function Check(body: RequestBody): Validated
    requires body.Fields?
  {
    Validate(body.calorie, body.protein, body.fat, body.carb)
  }

  /** The body reaches the classifier. */
  predicate Accepts(body: RequestBody) {
    body.Fields? && Check(body).Accepted?
  }

  function Input(body: RequestBody): NutritionInput
    requires Accepts(body)
  {
    Check(body).input
  }

  /** The answer the route gives when nothing throws after the gate: 500 for a
      body that cannot be read, 400 with the fixed message for one the gate
      rejects, and otherwise 200 carrying the model's result unchanged. */
  function ExpectedResponse(body: RequestBody): (r: Response)
    ensures r.status == 500 <==> !body.Fields?
    ensures r.status == 500 ==> r == ServerError()
    ensures r.status == 400 <==> body.Fields? && !Accepts(body)
    ensures r.status == 400 ==> r.body == Error(LevelError)
    ensures r.status == 200 <==> Accepts(body)
    ensures Accepts(body) ==> r.body == Prediction(CallMLModel(Input(body)))
  {
    match body
    case Unparsable => ServerError()
    case JsonNull => ServerError()
    case Fields(_, _, _, _) =>
      match Check(body)
      case Rejected(message) => Response(400, Error(message))
      case Accepted(n) => Response(200, Prediction(CallMLModel(n)))
  }

  // ---------------------------------------------------------------------
  // The database tables written by the route

  datatype AssessmentRow = AssessmentRow(
    id: nat, userId: UserId,
    calorieLevel: Level, proteinLevel: Level, fatLevel: Level, carbLevel: Level,
    predictedMood: string, confidenceScore: real)

  datatype RecommendationRow = RecommendationRow(
    assessmentId: nat, userId: UserId, foodName: string,
    calories: int, proteins: int, fats: int, carbohydrates: int,
    moodCategory: string, similarityScore: real)

  /** The assessment row saved for a prediction: the four levels, the mood
      label and the confidence, under the user and the id the database gives. */
  function AssessmentFor(id: nat, userId: UserId, n: NutritionInput): AssessmentRow {
    var p := CallMLModel(n).prediction;
    AssessmentRow(id, userId, n.calorieLevel, n.proteinLevel, n.fatLevel, n.carbLevel,
                  Label(p.mood), p.confidence)
  }

  /** One row per recommendation, in order, each copying the food's fields and
      carrying the assessment id and the user id. */
  function RecommendationRows(foods: seq<FoodRecommendation>, assessmentId: nat, userId: UserId)
    : (rows: seq<RecommendationRow>)
    ensures |rows| == |foods|
    ensures forall i :: 0 <= i < |foods| ==>
      && rows[i].assessmentId == assessmentId && rows[i].userId == userId
      && rows[i].foodName == foods[i].foodName
      && rows[i].calories == foods[i].calories && rows[i].proteins == foods[i].proteins
      && rows[i].fats == foods[i].fats && rows[i].carbohydrates == foods[i].carbohydrates
      && rows[i].moodCategory == Label(foods[i].moodCategory)
      && rows[i].similarityScore == foods[i].similarityScore
  {
    if foods == [] then []
    else
      var f := foods[0];
      [RecommendationRow(assessmentId, userId, f.foodName, f.calories, f.proteins, f.fats,
                         f.carbohydrates, Label(f.moodCategory), f.similarityScore)]
      + RecommendationRows(foods[1..], assessmentId, userId)
  }

  /** What the database does with one insert: it takes the rows, returns an
      error, or throws.  The database decides, not the route, so each verdict
      is an input of the request. */
  datatype Verdict = Accept | Reject(error: string) | Throw

  /** What a database call comes back with, as the route sees it: its result,
      the error the client returns, or an exception. */
  datatype Outcome<T> = Done(value: T) | Failed(error: string) | Threw

  function OutcomeOf<T>(v: Verdict, value: T): Outcome<T> {
    match v
    case Accept => Done(value)
    case Reject(e) => Failed(e)
    case Throw => Threw
  }

  /** The two tables the route writes.  Ids are handed out by the database;
      here they come from a counter. */
  class Store {
    var assessments: seq<AssessmentRow>
    var recommendations: seq<RecommendationRow>
    var nextId: nat

    constructor ()
      ensures assessments == [] && recommendations == [] && nextId == 0
    {
      assessments, recommendations, nextId := [], [], 0;
    }

    /** Inserts one assessment row and reads back its id; `v` is what the
        database does with it. */
    method InsertAssessment(userId: UserId, n: NutritionInput, v: Verdict) returns (outcome: Outcome<nat>)
      modifies this
      ensures outcome == OutcomeOf(v, old(nextId))
      ensures v.Accept? ==>
        && assessments == old(assessments) + [AssessmentFor(old(nextId), userId, n)]
        && nextId == old(nextId) + 1
      ensures !v.Accept? ==> assessments == old(assessments) && nextId == old(nextId)
      ensures recommendations == old(recommendations)
    {
      outcome := OutcomeOf(v, nextId);
      if v.Accept? {
        assessments := assessments + [AssessmentFor(nextId, userId, n)];
        nextId := nextId + 1;
      }
    }

    /** Inserts a batch of recommendation rows in one call: all of them or none. */
    method InsertRecommendations(rows: seq<RecommendationRow>, v: Verdict) returns (outcome: Outcome<()>)
      modifies this
      ensures outcome == OutcomeOf(v, ())
      ensures v.Accept? ==> recommendations == old(recommendations) + rows
      ensures !v.Accept? ==> recommendations == old(recommendations)
      ensures assessments == old(assessments) && nextId == old(nextId)
    {
      if v.Accept? {
        recommendations := recommendations + rows;
      }
      outcome := OutcomeOf(v, ());
    }
  }

  // ---------------------------------------------------------------------
  // The calls a request makes, and what the handler logs for them

  /** One call the route makes on the database, with the database's verdict. */
  datatype Call =
    | AssessmentInsert(userId: UserId, input: NutritionInput, verdict: Verdict)
    | RecommendationInsert(rows: seq<RecommendationRow>, verdict: Verdict)

  /** Some call of the request threw. */
  predicate AnyThrew(made: seq<Call>) {
    exists i :: 0 <= i < |made| && made[i].verdict.Throw?
  }

  /** The calls a request from user `uid` with a passed body makes, when the
      database hands out `id` next: the assessment insert, then the batch of
      recommendation rows linked to `id` only when the assessment was taken. */
  function RequestCalls(uid: UserId, n: NutritionInput, id: nat, av: Verdict, bv: Verdict): seq<Call> {
    [AssessmentInsert(uid, n, av)]
    + if av.Accept? then [RecommendationInsert(RecommendationRows(CallMLModel(n).recommendations, id, uid), bv)]
      else []
  }

  /** A request makes exactly one assessment insert, first, and at most one
      batch; it throws iff the assessment insert throws or it is taken and
      the batch throws. */
  lemma RequestCallsShape(uid: UserId, n: NutritionInput, id: nat, av: Verdict, bv: Verdict)
    ensures var made := RequestCalls(uid, n, id, av, bv);
      && 1 <= |made| <= 2
      && made[0] == AssessmentInsert(uid, n, av)
      && (forall i :: 0 <= i < |made| ==> (made[i].AssessmentInsert? <==> i == 0))
      && (|made| == 2 <==> av.Accept?)
      && (AnyThrew(made) <==> av.Throw? || (av.Accept? && bv.Throw?))
  {
    var made := RequestCalls(uid, n, id, av, bv);
    if av.Throw? {
      assert made[0].verdict.Throw?;
    } else if av.Accept? && bv.Throw? {
      assert made[1].verdict.Throw?;
    }
  }

  /** A `console.error` call: its fixed context string and the error shown. */
  datatype LogEntry = LogEntry(context: string, detail: string)

  const AssessmentErrorContext: string := "Error saving assessment:"
  const RecommendationErrorContext: string := "Error saving recommendations:"
  const HandlerErrorContext: string := "ML API Error:"

  /** Stand-ins for the exception objects the handler prints. */
  const UnreadableBody: string := "unreadable request body"
  const DatabaseThrew: string := "database call threw"

  /** What the handler logs for one database call: a returned error under its
      table's context, an exception under the handler's, nothing on success. */
  function CallLogEntries(c: Call): (entries: seq<LogEntry>)
    ensures |entries| <= 1
    ensures |entries| == 1 <==> !c.verdict.Accept?
    ensures c.verdict.Throw? <==> entries == [LogEntry(HandlerErrorContext, DatabaseThrew)]
    ensures c.AssessmentInsert? && c.verdict.Reject? ==>
      entries == [LogEntry(AssessmentErrorContext, c.verdict.error)]
    ensures c.RecommendationInsert? && c.verdict.Reject? ==>
      entries == [LogEntry(RecommendationErrorContext, c.verdict.error)]
  {
    match c
    case AssessmentInsert(_, _, Reject(e)) => [LogEntry(AssessmentErrorContext, e)]
    case RecommendationInsert(_, Reject(e)) => [LogEntry(RecommendationErrorContext, e)]
    case AssessmentInsert(_, _, Throw) => [LogEntry(HandlerErrorContext, DatabaseThrew)]
    case RecommendationInsert(_, Throw) => [LogEntry(HandlerErrorContext, DatabaseThrew)]
    case _ => []
  }

  /** The log of a request's database calls, in the order they were made. */
  function CallLog(made: seq<Call>): seq<LogEntry> {
    if made == [] then [] else CallLogEntries(made[0]) + CallLog(made[1..])
  }

  // ---------------------------------------------------------------------
  // The handler

  /** Handles one request.  `user` is the session's user, if any;
      `assessmentVerdict` and `batchVerdict` are what the database does with
      the assessment insert and with the recommendation batch, should the
      route make them.  Nothing is written without a user or for a body the
      gate does not pass.  Otherwise the assessment is inserted, and the
      recommendation rows, linked to its id, exactly when it was taken.  The
      answer is the one `ExpectedResponse` gives unless an insert threw, in
      which case it is the generic 500; an error an insert returns is only
      logged. */
  method Post(store: Store, body: RequestBody, user: Option<UserId>,
              assessmentVerdict: Verdict, batchVerdict: Verdict)
    returns (resp: Response, logged: seq<LogEntry>)
    modifies store
    ensures resp ==
      if Accepts(body) && user.Some?
         && (assessmentVerdict.Throw? || (assessmentVerdict.Accept? && batchVerdict.Throw?))
      then ServerError() else ExpectedResponse(body)
    ensures !body.Fields? ==> logged == [LogEntry(HandlerErrorContext, UnreadableBody)]
    ensures body.Fields? && !(Accepts(body) && user.Some?) ==> logged == []
    ensures !(Accepts(body) && user.Some?) ==>
      && store.assessments == old(store.assessments)
      && store.recommendations == old(store.recommendations)
      && store.nextId == old(store.nextId)
    ensures Accepts(body) && user.Some? ==>
      var n, uid, id, av, bv := Input(body), user.value, old(store.nextId), assessmentVerdict, batchVerdict;
      && logged == CallLog(RequestCalls(uid, n, id, av, bv))
      && store.assessments == old(store.assessments) + (if av.Accept? then [AssessmentFor(id, uid, n)] else [])
      && store.nextId == id + (if av.Accept? then 1 else 0)
      && store.recommendations == old(store.recommendations)
           + (if av.Accept? && bv.Accept? then RecommendationRows(CallMLModel(n).recommendations, id, uid) else [])
  {
    logged := [];
    if !body.Fields? {
      // reading the body, or destructuring it, throws
      resp := ServerError();
      logged := [LogEntry(HandlerErrorContext, UnreadableBody)];
      return;
    }
    var checked := Validate(body.calorie, body.protein, body.fat, body.carb);
    if checked.Rejected? {
      resp := Response(400, Error(checked.message));
      return;
    }
    var n := checked.input;
    var mlResult := CallMLModel(n);
    if user.Some? {
      ghost var made := RequestCalls(user.value, n, store.nextId, assessmentVerdict, batchVerdict);
      var assessment := store.InsertAssessment(user.value, n, assessmentVerdict);
      if assessment.Threw? {
        assert CallLog(made) == CallLogEntries(made[0]) by { assert made[1..] == []; }
        resp := ServerError();
        logged := [LogEntry(HandlerErrorContext, DatabaseThrew)];
        return;
      }
      if assessment.Failed? {
        assert CallLog(made) == CallLogEntries(made[0]) by { assert made[1..] == []; }
        logged := [LogEntry(AssessmentErrorContext, assessment.error)];
      }
      if assessment.Done? {
        var rows := RecommendationRows(mlResult.recommendations, assessment.value, user.value);
        var saved := store.InsertRecommendations(rows, batchVerdict);
        assert CallLog(made) == CallLogEntries(made[1]) by {
          assert assessmentVerdict.Accept? && |made| == 2;
          assert CallLogEntries(made[0]) == [];
          assert made[1..] == [made[1]] && made[1..][1..] == [];
          assert CallLog(made[1..]) == CallLogEntries(made[1]) + CallLog([]);
        }
        if saved.Threw? {
          resp := ServerError();
          logged := [LogEntry(HandlerErrorContext, DatabaseThrew)];
          return;
        }
        if saved.Failed? {
          logged := [LogEntry(RecommendationErrorContext, saved.error)];
        }
      }
    }
    resp := Response(200, Prediction(mlResult));
  }
}
