/**
 * The page a visitor lands on after signing in with an assessment taken
 * while signed out (app/assessment/complete/page.tsx): the answers parked
 * under `pending_assessment` are submitted once for the signed-in user.
 */
module AssessmentComplete {
  import opened Wrappers
  import opened Platform

  /** What `GET /assessment/my-assessment` produced: a rejected call, or the `_id` of the body's `data`, if any. */
  datatype LookupReply = LookupFailed(message: Option<string>) | Found(id: Option<string>)

  /** What `POST /assessment/submit` produced: a rejected call, or the body's `success`. */
  datatype SubmitReply = SubmitFailed(message: Option<string>) | SubmitReplied(success: bool)

  const FailureFallback := "Failed to save assessment"

  /** Both a token and a stored user are present. */
  predicate SignedIn(storage: map<string, string>) {
    && AccessTokenKey in storage && storage[AccessTokenKey] != ""
    && UserKey in storage && storage[UserKey] != ""
  }

  predicate HasPending(storage: map<string, string>) {
    PendingAssessmentKey in storage && storage[PendingAssessmentKey] != ""
  }

  /** The toast of the `catch`: the server's message, or the fallback. */
  function CatchMessage(message: Option<string>): (r: string)
    ensures r != ""
    ensures Truthy(message) ==> r == message.value
  {
    if Truthy(message) then message.value else FailureFallback
  }

  /** The `catch` path's events: the error toast and a move home two seconds later. */
  function CatchEvents(message: Option<string>): (r: seq<Event>)
    ensures |r| == 2
    ensures r[0].Notify? && r[0].kind == Error && r[0].message != ""
    ensures Truthy(message) ==> r[0].message == message.value
    ensures r[1] == NavigateLater("/", 2000)
  {
    [Notify(Error, CatchMessage(message), None), NavigateLater("/", 2000)]
  }

  class CompletePage {
    var processing: bool
    const browser: Browser

    constructor (browser: Browser)
      ensures processing && this.browser == browser
    {
      processing := true;
      this.browser := browser;
    }

    /**
     * `completeAssessment`. `parse` is `JSON.parse` (None when it throws);
     * `existing` and `submit` are what the two calls would produce, each
     * consulted only when its call is made. `sent` is the submit body.
     */
    method CompleteAssessment<T>(parse: string -> Option<T>, existing: LookupReply, submit: SubmitReply)
      returns (sent: Option<T>)
      modifies this, browser
      ensures !processing
      // not signed in: back to /login, nothing asked, the parked answers untouched
      ensures !SignedIn(old(browser.storage)) ==>
                && sent == None && browser.storage == old(browser.storage)
                && browser.events == old(browser.events) + [Notify(Error, "Please login first", None), Navigate("/login")]
      // nothing parked: home, nothing asked
      ensures SignedIn(old(browser.storage)) && !HasPending(old(browser.storage)) ==>
                && sent == None && browser.storage == old(browser.storage)
                && browser.events == old(browser.events) + [Notify(Info, "No pending assessment found", None), Navigate("/")]
      // unreadable answers: the catch path, nothing asked
      ensures SignedIn(old(browser.storage)) && HasPending(old(browser.storage))
              && parse(old(browser.storage)[PendingAssessmentKey]).None? ==>
                && sent == None && browser.storage == old(browser.storage)
                && browser.events == old(browser.events) + CatchEvents(None)
      ensures SignedIn(old(browser.storage)) && HasPending(old(browser.storage))
              && parse(old(browser.storage)[PendingAssessmentKey]).Some? ==>
                var parsed := parse(old(browser.storage)[PendingAssessmentKey]).value;
                var lookup := old(browser.events) + [Call(Get, "/assessment/my-assessment")];
                && (existing.LookupFailed? ==>
                      && sent == None && browser.storage == old(browser.storage)
                      && browser.events == lookup + CatchEvents(existing.message))
                // an assessment already on file: the parked one is discarded, never submitted
                && (existing.Found? && Truthy(existing.id) ==>
                      && sent == None && browser.storage == old(browser.storage) - {PendingAssessmentKey}
                      && browser.events == lookup + [Notify(Info, "You already have a completed assessment", None), Navigate("/")])
                // otherwise the parsed answers are submitted as they are
                && (existing.Found? && !Truthy(existing.id) ==>
                      && sent == Some(parsed)
                      && (submit.SubmitFailed? ==>
                            && browser.storage == old(browser.storage)
                            && browser.events == lookup + [Call(Post, "/assessment/submit")] + CatchEvents(submit.message))
                      && (submit.SubmitReplied? && submit.success ==>
                            && browser.storage == old(browser.storage) - {PendingAssessmentKey}
                            && browser.events == lookup + [Call(Post, "/assessment/submit"),
                                 Notify(Success, "Assessment saved successfully!", None), Navigate("/")])
                      && (submit.SubmitReplied? && !submit.success ==>
                            && browser.storage == old(browser.storage)
                            && browser.events == lookup + [Call(Post, "/assessment/submit")]))
    {
      sent := None;
      var token := browser.GetItem(AccessTokenKey);
      var user := browser.GetItem(UserKey);
      if !Truthy(token) || !Truthy(user) {
        browser.Emit(Notify(Error, "Please login first", None));
        browser.Emit(Navigate("/login"));
        processing := false;
        return;
      }
      var pending := browser.GetItem(PendingAssessmentKey);
      if !Truthy(pending) {
        browser.Emit(Notify(Info, "No pending assessment found", None));
        browser.Emit(Navigate("/"));
        processing := false;
        return;
      }
      var parsed := parse(pending.value);
      if parsed.None? {
        Fail(None);
        return;
      }
      browser.Emit(Call(Get, "/assessment/my-assessment"));
      if existing.LookupFailed? {
        Fail(existing.message);
        return;
      }
      if Truthy(existing.id) {
        browser.Emit(Notify(Info, "You already have a completed assessment", None));
        browser.RemoveItem(PendingAssessmentKey);
        browser.Emit(Navigate("/"));
        processing := false;
        return;
      }
      browser.Emit(Call(Post, "/assessment/submit"));
      sent := parsed;
      if submit.SubmitFailed? {
        Fail(submit.message);
        return;
      }
      if submit.success {
        browser.Emit(Notify(Success, "Assessment saved successfully!", None));
        browser.RemoveItem(PendingAssessmentKey);
        browser.Emit(Navigate("/"));
      }
      processing := false;
    }

    /** The `catch` and `finally` blocks. */
    method Fail(message: Option<string>)
      modifies this, browser
      ensures !processing
      ensures browser.storage == old(browser.storage)
      ensures browser.events == old(browser.events) + CatchEvents(message)
    {
      browser.Emit(Notify(Error, CatchMessage(message), None));
      browser.Emit(NavigateLater("/", 2000));
      processing := false;
    }
  }
}
