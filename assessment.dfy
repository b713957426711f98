/**
 * The eligibility-assessment wizard (app/assessment/page.tsx): a country
 * step, then one question at a time with Next/Previous, a response list
 * kept in step with the questions, and the submission of all answers.
 */
module Assessment {
  import opened Wrappers
  import opened Platform
  import opened Seqs
  import Text

  datatype Question = Question(id: string, text: string, category: string, weight: int)

  datatype Response = Response(questionId: string, question: string, answer: bool, weight: int)

  /** The body of `POST /assessment/submit`. */
  datatype Submission = Submission(sessionId: string, fromCountry: string, toCountry: string, responses: seq<Response>)

  /**
   * What the submit call produced: a rejected call, a reply without `data`
   * (the success toast is shown before reading `data.sessionId` throws), or
   * a reply whose `data.sessionId` renders as `sessionId`.
   */
  datatype SubmitReply = SubmitFailed | SubmittedWithoutData | Submitted(sessionId: string)

  const Categories := ["personal", "employment", "financial", "travel", "legal", "health", "other"]

  /** Response `i` answers question `i`: same id, text and weight. */
  predicate Matches(questions: seq<Question>, responses: seq<Response>) {
    && |responses| == |questions|
    && forall i :: 0 <= i < |questions| ==>
         && responses[i].questionId == questions[i].id
         && responses[i].question == questions[i].text
         && responses[i].weight == questions[i].weight
  }

  /** The responses built from freshly fetched questions: every answer `false`. */
  function InitResponses(questions: seq<Question>): (r: seq<Response>)
    ensures Matches(questions, r)
    ensures forall i :: 0 <= i < |r| ==> !r[i].answer
  {
    if questions == [] then []
    else
      var q := questions[0];
      [Response(q.id, q.text, false, q.weight)] + InitResponses(questions[1..])
  }

  /** `handleAnswerChange`: every response for question `id` takes `answer`. */
  function WithAnswer(responses: seq<Response>, id: string, answer: bool): (r: seq<Response>)
    ensures |r| == |responses|
    ensures forall i :: 0 <= i < |r| ==>
              r[i] == if responses[i].questionId == id then responses[i].(answer := answer) else responses[i]
  {
    if responses == [] then []
    else
      var head := if responses[0].questionId == id then responses[0].(answer := answer) else responses[0];
      [head] + WithAnswer(responses[1..], id, answer)
  }

  /** Answering keeps the responses in step with the questions. */
  lemma WithAnswerMatches(questions: seq<Question>, responses: seq<Response>, id: string, answer: bool)
    requires Matches(questions, responses)
    ensures Matches(questions, WithAnswer(responses, id, answer))
  {
  }

  /** The last answer given to a question is the one that counts. */
  lemma WithAnswerLastWins(responses: seq<Response>, id: string, a: bool, b: bool)
    ensures WithAnswer(WithAnswer(responses, id, a), id, b) == WithAnswer(responses, id, b)
  {
    var once, twice := WithAnswer(responses, id, b), WithAnswer(WithAnswer(responses, id, a), id, b);
    assert forall i :: 0 <= i < |once| ==> once[i] == twice[i];
  }

  /** Answers to two different questions do not interfere. */
  lemma WithAnswerCommutes(responses: seq<Response>, id1: string, a: bool, id2: string, b: bool)
    requires id1 != id2
    ensures WithAnswer(WithAnswer(responses, id1, a), id2, b) == WithAnswer(WithAnswer(responses, id2, b), id1, a)
  {
    var x1, y1 := WithAnswer(responses, id1, a), WithAnswer(responses, id2, b);
    var x, y := WithAnswer(x1, id2, b), WithAnswer(y1, id1, a);
    forall i | 0 <= i < |x|
      ensures x[i] == y[i]
    {
      assert x1[i].questionId == responses[i].questionId && y1[i].questionId == responses[i].questionId;
    }
  }

  /** The progress bar, in percent: questions reached over questions in total. */
  function Progress(cursor: int, count: nat): real {
    if count > 0 then ((cursor + 1) as real / count as real) * 100.0 else 0.0
  }

  /** Within the question list the bar is above 0 and at most 100, and full exactly at the last question. */
  lemma ProgressBounds(cursor: int, count: nat)
    requires 0 <= cursor < count
    ensures 0.0 < Progress(cursor, count) <= 100.0
    ensures Progress(cursor, count) == 100.0 <==> cursor == count - 1
  {
    var n := count as real;
    assert Progress(cursor, count) == (cursor + 1) as real * 100.0 / n;
    if Progress(cursor, count) == 100.0 {
      assert (cursor + 1) as real * 100.0 == 100.0 * n;
    }
  }

  /** A step forward moves the bar strictly forward. */
  lemma ProgressIncreases(cursor: int, count: nat)
    requires count > 0
    ensures Progress(cursor + 1, count) > Progress(cursor, count)
  {
    var n := count as real;
    assert Progress(cursor + 1, count) == Progress(cursor, count) + 100.0 / n;
  }

  /** `questions.findIndex(q => q.id === id)`: the first position with that id, or -1. */
  function FirstIndex(questions: seq<Question>, id: string): (k: int)
    ensures -1 <= k < |questions|
    ensures k >= 0 ==> questions[k].id == id && forall j :: 0 <= j < k ==> questions[j].id != id
    ensures k == -1 <==> forall j :: 0 <= j < |questions| ==> questions[j].id != id
  {
    if questions == [] then -1
    else if questions[0].id == id then 0
    else
      var k := FirstIndex(questions[1..], id);
      if k == -1 then -1 else k + 1
  }

  /** The questions of one category, in order. */
  function InCategory(questions: seq<Question>, category: string): seq<Question> {
    Filter(questions, (q: Question) => q.category == category)
  }

  /** The questions of one category the cursor has reached (by each id's first position). */
  function Reached(questions: seq<Question>, category: string, cursor: int): seq<Question> {
    Filter(InCategory(questions, category), (q: Question) => FirstIndex(questions, q.id) <= cursor)
  }

  /** A category's bar, in percent. */
  function CategoryProgress(questions: seq<Question>, category: string, cursor: int): real {
    var total := |InCategory(questions, category)|;
    if total > 0 then (|Reached(questions, category, cursor)| as real / total as real) * 100.0 else 0.0
  }

  /** No more questions of a category are reached than it has, so its bar stays within 0 to 100. */
  lemma ReachedBounds(questions: seq<Question>, category: string, cursor: int)
    ensures |Reached(questions, category, cursor)| <= |InCategory(questions, category)|
    ensures 0.0 <= CategoryProgress(questions, category, cursor) <= 100.0
  {
    var total, got := |InCategory(questions, category)|, |Reached(questions, category, cursor)|;
    if total > 0 {
      FractionBounds(got as real, total as real);
    }
  }

  lemma FractionBounds(part: real, whole: real)
    requires 0.0 <= part <= whole && whole > 0.0
    ensures 0.0 <= (part / whole) * 100.0 <= 100.0
  {
    var f := part / whole;
    assert f * whole == part;
  }

  /** A category without questions has none reached and an empty bar. */
  lemma EmptyCategory(questions: seq<Question>, category: string, cursor: int)
    requires forall i :: 0 <= i < |questions| ==> questions[i].category != category
    ensures Reached(questions, category, cursor) == []
    ensures CategoryProgress(questions, category, cursor) == 0.0
  {
    FilterNone(questions, (q: Question) => q.category == category);
  }

  /** At the last question every category is complete. */
  lemma ReachedAtLast(questions: seq<Question>, category: string, cursor: int)
    requires cursor >= |questions| - 1
    ensures Reached(questions, category, cursor) == InCategory(questions, category)
  {
    var all := InCategory(questions, category);
    forall i | 0 <= i < |all| ensures FirstIndex(questions, all[i].id) <= cursor {
    }
    FilterKeepsAll(all, (q: Question) => FirstIndex(questions, q.id) <= cursor);
  }

  /** The client-side session id: `session_` and the clock in milliseconds. */
  function SessionId(now: nat): string {
    "session_" + Text.Decimal(now)
  }

  /** Submissions made at different instants carry different session ids. */
  lemma SessionIdInjective(a: nat, b: nat)
    requires a != b
    ensures SessionId(a) != SessionId(b)
  {
    if SessionId(a) == SessionId(b) {
      assert SessionId(a)[8..] == Text.Decimal(a);
      assert SessionId(b)[8..] == Text.Decimal(b);
      Text.DecimalInjective(a, b);
    }
  }

  /** The emoji of a category; any category outside the seven gets a memo. */
  function CategoryIcon(category: string): (icon: string)
    ensures icon == "\U{1F4DD}" <==> category !in Categories
  {
    if category == "personal" then "\U{1F464}"
    else if category == "employment" then "\U{1F4BC}"
    else if category == "financial" then "\U{1F4B0}"
    else if category == "travel" then "✈\U{FE0F}"
    else if category == "legal" then "⚖\U{FE0F}"
    else if category == "health" then "\U{1F3E5}"
    else if category == "other" then "\U{1F4CB}"
    else "\U{1F4DD}"
  }

  class AssessmentPage {
    var currentStep: int
    var questions: seq<Question>
    var responses: seq<Response>
    var loading: bool
    var submitting: bool
    var fromCountry: string
    var toCountry: string
    var cursor: int
    const browser: Browser

    /** The responses stay in step with the questions, and the cursor is never negative. */
    predicate Valid()
      reads this
    {
      Matches(questions, responses) && 0 <= cursor
    }

    /** The page opens on the country step, countries taken from `?from=` and `?to=`. */
    constructor (from: Option<string>, to: Option<string>, browser: Browser)
      ensures Valid() && currentStep == 0 && questions == [] && responses == [] && cursor == 0
      ensures loading && !submitting && this.browser == browser
      ensures fromCountry == from.GetOr("") && toCountry == to.GetOr("")
    {
      currentStep := 0;
      questions := [];
      responses := [];
      loading := true;
      submitting := false;
      fromCountry := from.GetOr("");
      toCountry := to.GetOr("");
      cursor := 0;
      this.browser := browser;
    }

    /** The "Current Country" picker: only the origin changes. */
    method SelectFrom(code: string)
      modifies this
      ensures fromCountry == code
      ensures toCountry == old(toCountry) && currentStep == old(currentStep) && cursor == old(cursor)
      ensures questions == old(questions) && responses == old(responses)
      ensures loading == old(loading) && submitting == old(submitting)
    {
      fromCountry := code;
    }

    /** The "Destination Country" picker: only the destination changes. */
    method SelectTo(code: string)
      modifies this
      ensures toCountry == code
      ensures fromCountry == old(fromCountry) && currentStep == old(currentStep) && cursor == old(cursor)
      ensures questions == old(questions) && responses == old(responses)
      ensures loading == old(loading) && submitting == old(submitting)
    {
      toCountry := code;
    }

    /** `handleCountrySelection`: the question step opens only once both countries are chosen. */
    method HandleCountrySelection()
      requires Valid()
      modifies this, browser
      ensures Valid()
      ensures fromCountry != "" && toCountry != "" ==>
                currentStep == 1 && browser.events == old(browser.events)
      ensures fromCountry == "" || toCountry == "" ==>
                && currentStep == old(currentStep)
                && browser.events == old(browser.events) + [Notify(Error, "Please select both countries", None)]
      ensures browser.storage == old(browser.storage)
      ensures questions == old(questions) && responses == old(responses) && cursor == old(cursor)
      ensures fromCountry == old(fromCountry) && toCountry == old(toCountry)
      ensures loading == old(loading) && submitting == old(submitting)
    {
      if fromCountry == "" || toCountry == "" {
        browser.Emit(Notify(Error, "Please select both countries", None));
        return;
      }
      currentStep := 1;
    }

    /**
     * The fetch effect: on the question step with both countries chosen the
     * questions are requested; `reply` is what the request produced.
     */
    method FetchQuestions(reply: Option<seq<Question>>)
      requires Valid()
      modifies this, browser
      ensures Valid()
      ensures !(fromCountry != "" && toCountry != "" && currentStep == 1) ==>
                && questions == old(questions) && responses == old(responses) && loading == old(loading)
                && browser.events == old(browser.events)
      ensures fromCountry != "" && toCountry != "" && currentStep == 1 ==>
                && !loading
                && (reply.Some? ==>
                      && questions == reply.value && responses == InitResponses(reply.value)
                      && browser.events == old(browser.events) + [Call(Get, "/assessment/questions")])
                && (reply.None? ==>
                      && questions == old(questions) && responses == old(responses)
                      && browser.events == old(browser.events) +
                           [Call(Get, "/assessment/questions"), Notify(Error, "Failed to fetch assessment questions", None)])
      ensures browser.storage == old(browser.storage)
      ensures cursor == old(cursor) && currentStep == old(currentStep) && submitting == old(submitting)
      ensures fromCountry == old(fromCountry) && toCountry == old(toCountry)
    {
      if !(fromCountry != "" && toCountry != "" && currentStep == 1) {
        return;
      }
      loading := true;
      browser.Emit(Call(Get, "/assessment/questions"));
      if reply.Some? {
        questions := reply.value;
        responses := InitResponses(reply.value);
      } else {
        browser.Emit(Notify(Error, "Failed to fetch assessment questions", None));
      }
      loading := false;
    }

    /** `handleAnswerChange`. */
    method HandleAnswerChange(id: string, answer: bool)
      requires Valid()
      modifies this
      ensures Valid()
      ensures responses == WithAnswer(old(responses), id, answer)
      ensures questions == old(questions) && cursor == old(cursor) && currentStep == old(currentStep)
      ensures loading == old(loading) && submitting == old(submitting)
      ensures fromCountry == old(fromCountry) && toCountry == old(toCountry)
    {
      WithAnswerMatches(questions, responses, id, answer);
      responses := WithAnswer(responses, id, answer);
    }

    /**
     * `handleNext`: before the last question the cursor advances; at the last
     * one (or with no questions at all) the answers are submitted, stamped
     * with the clock `now`, and `submission` is the request body.
     */
    method HandleNext(now: nat) returns (submission: Option<Submission>)
      requires Valid()
      modifies this, browser
      ensures Valid()
      ensures old(cursor) < |questions| - 1 ==>
                && cursor == old(cursor) + 1 && submission == None && submitting == old(submitting)
                && browser.events == old(browser.events)
      ensures old(cursor) >= |questions| - 1 ==>
                && cursor == old(cursor) && submitting
                && submission == Some(Submission(SessionId(now), fromCountry, toCountry, responses))
                && browser.events == old(browser.events) + [Call(Post, "/assessment/submit")]
      ensures 0 <= old(cursor) < |questions| ==> 0 <= cursor < |questions|
      ensures browser.storage == old(browser.storage)
      ensures questions == old(questions) && responses == old(responses) && currentStep == old(currentStep)
      ensures loading == old(loading) && fromCountry == old(fromCountry) && toCountry == old(toCountry)
    {
      if cursor < |questions| - 1 {
        cursor := cursor + 1;
        return None;
      }
      submitting := true;
      browser.Emit(Call(Post, "/assessment/submit"));
      submission := Some(Submission(SessionId(now), fromCountry, toCountry, responses));
    }

    /** The end of `submitAssessment`: toasts, the move to the results page on success, `submitting` cleared. */
    method FinishSubmit(reply: SubmitReply)
      requires Valid()
      modifies this, browser
      ensures Valid() && !submitting
      ensures reply.Submitted? ==>
                browser.events == old(browser.events) + [Notify(Success, "Assessment completed successfully!", None),
                  Navigate("/assessment/results?sessionId=" + reply.sessionId)]
      ensures reply.SubmittedWithoutData? ==>
                browser.events == old(browser.events) + [Notify(Success, "Assessment completed successfully!", None),
                  Notify(Error, "Failed to submit assessment", None)]
      ensures reply.SubmitFailed? ==>
                browser.events == old(browser.events) + [Notify(Error, "Failed to submit assessment", None)]
      ensures browser.storage == old(browser.storage)
      ensures questions == old(questions) && responses == old(responses) && cursor == old(cursor)
      ensures currentStep == old(currentStep) && loading == old(loading)
      ensures fromCountry == old(fromCountry) && toCountry == old(toCountry)
    {
      match reply {
        case Submitted(sessionId) =>
          browser.Emit(Notify(Success, "Assessment completed successfully!", None));
          browser.Emit(Navigate("/assessment/results?sessionId=" + sessionId));
        case SubmittedWithoutData =>
          browser.Emit(Notify(Success, "Assessment completed successfully!", None));
          browser.Emit(Notify(Error, "Failed to submit assessment", None));
        case SubmitFailed =>
          browser.Emit(Notify(Error, "Failed to submit assessment", None));
      }
      submitting := false;
    }

    /** `handlePrevious`: one question back, never before the first. */
    method HandlePrevious()
      requires Valid()
      modifies this
      ensures Valid()
      ensures old(cursor) > 0 ==> cursor == old(cursor) - 1
      ensures old(cursor) == 0 ==> cursor == 0
      ensures questions == old(questions) && responses == old(responses) && currentStep == old(currentStep)
      ensures loading == old(loading) && submitting == old(submitting)
      ensures fromCountry == old(fromCountry) && toCountry == old(toCountry)
    {
      if cursor > 0 {
        cursor := cursor - 1;
      }
    }
  }

  /** Walking the wizard from the first question: every Next before the last keeps the cursor on a question, and the Next at the last one submits. */
  method Walk(page: AssessmentPage, now: nat) returns (submission: Submission)
    requires page.Valid() && page.cursor == 0 && |page.questions| > 0
    modifies page, page.browser
    ensures page.Valid() && page.cursor == |page.questions| - 1 && page.submitting
    ensures page.questions == old(page.questions) && page.responses == old(page.responses)
    ensures page.fromCountry == old(page.fromCountry) && page.toCountry == old(page.toCountry)
    ensures submission == Submission(SessionId(now), old(page.fromCountry), old(page.toCountry), old(page.responses))
    ensures page.browser.events == old(page.browser.events) + [Call(Post, "/assessment/submit")]
    ensures page.browser.storage == old(page.browser.storage)
  {
    while page.cursor < |page.questions| - 1
      invariant page.Valid() && 0 <= page.cursor < |page.questions|
      invariant page.questions == old(page.questions) && page.responses == old(page.responses)
      invariant page.fromCountry == old(page.fromCountry) && page.toCountry == old(page.toCountry)
      invariant page.browser.events == old(page.browser.events) && page.browser.storage == old(page.browser.storage)
      decreases |page.questions| - page.cursor
    {
      var none := page.HandleNext(now);
    }
    var last := page.HandleNext(now);
    submission := last.value;
  }
}
