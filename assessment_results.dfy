/**
 * The assessment report (app/assessment/results/page.tsx): the result for
 * the `sessionId` in the URL is fetched once, and its eligibility status
 * picks the colour, icon, message, heading and call-to-action buttons.
 */
module AssessmentResults {
  import opened Wrappers
  import opened Platform
  import Text

  const Eligible := "eligible"
  const PotentiallyEligible := "potentially_eligible"
  const NeedsReview := "needs_review"
  const NotEligible := "not_eligible"
  const KnownStatuses := [Eligible, PotentiallyEligible, NeedsReview, NotEligible]

  const FallbackColor := "bg-gray-100 border-gray-500"
  const FallbackMessage := "Please consult with our experts for guidance."

  datatype AssessmentResult = AssessmentResult(sessionId: string, score: int, riskLevel: string, eligibilityStatus: string)

  /** What `GET /assessment/results/<id>` produced: a rejected call, or its body (possibly absent). */
  datatype FetchReply = FetchFailed | Fetched(data: Option<AssessmentResult>)

  datatype StatusIcon = GreenCheck | YellowAlert | RedAlert

  /** The buttons under the report. */
  datatype Action = StartApplication | ScheduleConsultation | DownloadReport | ShareResults {
    /** Each button has its own caption. */
    function Caption(): (caption: string)
      ensures caption == "Start Your Application" <==> this == StartApplication
      ensures caption == "Schedule Consultation" <==> this == ScheduleConsultation
      ensures caption == "Download Report" <==> this == DownloadReport
      ensures caption == "Share Results" <==> this == ShareResults
    {
      match this
      case StartApplication => "Start Your Application"
      case ScheduleConsultation => "Schedule Consultation"
      case DownloadReport => "Download Report"
      case ShareResults => "Share Results"
    }

    /** The page a button links to; the last two are plain buttons. */
    function Link(): (link: Option<string>)
      ensures link.Some? <==> this == StartApplication || this == ScheduleConsultation
      ensures this == StartApplication ==> link == Some("/register")
      ensures this == ScheduleConsultation ==> link == Some("/contact")
    {
      match this
      case StartApplication => Some("/register")
      case ScheduleConsultation => Some("/contact")
      case _ => None
    }
  }

  /** The card colour: one per known status, gray for anything else. */
  function StatusColor(status: string): (color: string)
    ensures color == FallbackColor <==> status !in KnownStatuses
    ensures status == Eligible ==> color == "bg-green-100 border-green-500"
    ensures status == PotentiallyEligible ==> color == "bg-yellow-100 border-yellow-500"
    ensures status == NeedsReview ==> color == "bg-orange-100 border-orange-500"
    ensures status == NotEligible ==> color == "bg-red-100 border-red-500"
  {
    if status == Eligible then "bg-green-100 border-green-500"
    else if status == PotentiallyEligible then "bg-yellow-100 border-yellow-500"
    else if status == NeedsReview then "bg-orange-100 border-orange-500"
    else if status == NotEligible then "bg-red-100 border-red-500"
    else FallbackColor
  }

  /** The known statuses get four different colours. */
  lemma StatusColorsDistinct(s: string, t: string)
    requires s in KnownStatuses && t in KnownStatuses && s != t
    ensures StatusColor(s) != StatusColor(t)
  {
  }

  /** The icon: a check only for `eligible`, a yellow alert only for `potentially_eligible`. */
  function Icon(status: string): (icon: StatusIcon)
    ensures icon == GreenCheck <==> status == Eligible
    ensures icon == YellowAlert <==> status == PotentiallyEligible
    ensures icon == RedAlert <==> status != Eligible && status != PotentiallyEligible
  {
    if status == Eligible then GreenCheck
    else if status == PotentiallyEligible then YellowAlert
    else RedAlert
  }

  /** The explanation under the heading: one per known status, a referral for anything else. */
  function StatusMessage(status: string): (message: string)
    ensures message == FallbackMessage <==> status !in KnownStatuses
    ensures status == Eligible ==> message == "Congratulations! You have strong eligibility for immigration."
    ensures status == PotentiallyEligible ==> message == "You may be eligible with some improvements to your profile."
    ensures status == NeedsReview ==> message == "Your profile needs expert review for the best pathway forward."
    ensures status == NotEligible ==> message == "Your current profile faces significant challenges for immigration."
  {
    if status == Eligible then "Congratulations! You have strong eligibility for immigration."
    else if status == PotentiallyEligible then "You may be eligible with some improvements to your profile."
    else if status == NeedsReview then "Your profile needs expert review for the best pathway forward."
    else if status == NotEligible then "Your current profile faces significant challenges for immigration."
    else FallbackMessage
  }

  /** The heading: the status with every underscore turned into a space. */
  function Heading(status: string): (heading: string)
    ensures |heading| == |status|
    ensures '_' !in heading
    ensures forall i :: 0 <= i < |status| && status[i] == '_' ==> heading[i] == ' '
    ensures forall i :: 0 <= i < |status| && status[i] != '_' ==> heading[i] == status[i]
  {
    Text.ReplaceAll(status, '_', ' ')
  }

  /** The row of buttons under the report, in page order. */
  function Actions(status: string): (buttons: seq<Action>)
    ensures StartApplication in buttons <==> status == Eligible
    ensures ScheduleConsultation in buttons <==> status == PotentiallyEligible || status == NeedsReview
    ensures DownloadReport in buttons && ShareResults in buttons
    ensures buttons[|buttons| - 2..] == [DownloadReport, ShareResults]
  {
    var offer :=
      if status == Eligible then [StartApplication]
      else if status == PotentiallyEligible || status == NeedsReview then [ScheduleConsultation]
      else [];
    offer + [DownloadReport, ShareResults]
  }

  /** No status is offered both an application and a consultation; `not_eligible` gets neither. */
  lemma ActionsExclusive(status: string)
    ensures !(StartApplication in Actions(status) && ScheduleConsultation in Actions(status))
    ensures status == NotEligible ==> Actions(status) == [DownloadReport, ShareResults]
  {
  }

  class ResultsPage {
    var result: Option<AssessmentResult>
    var loading: bool
    const browser: Browser

    constructor (browser: Browser)
      ensures result == None && loading && this.browser == browser
    {
      result := None;
      loading := true;
      this.browser := browser;
    }

    /**
     * The mount effect for the `sessionId` query parameter: without one the
     * page goes back to the wizard (and stays on its spinner); with one the
     * result is fetched, and a failure also goes back to the wizard.
     */
    method OnMount(sessionId: Option<string>, reply: FetchReply)
      modifies this, browser
      ensures browser.storage == old(browser.storage)
      ensures !Truthy(sessionId) ==>
                && result == old(result) && loading == old(loading)
                && browser.events == old(browser.events) + [Navigate("/assessment")]
      ensures Truthy(sessionId) ==> !loading
      ensures Truthy(sessionId) && reply.Fetched? ==>
                && result == reply.data
                && browser.events == old(browser.events) + [Call(Get, "/assessment/results/" + sessionId.value)]
      ensures Truthy(sessionId) && reply.FetchFailed? ==>
                && result == old(result)
                && browser.events == old(browser.events) + [Call(Get, "/assessment/results/" + sessionId.value),
                     Notify(Error, "Failed to fetch assessment results", None), Navigate("/assessment")]
    {
      if !Truthy(sessionId) {
        browser.Emit(Navigate("/assessment"));
        return;
      }
      loading := true;
      browser.Emit(Call(Get, "/assessment/results/" + sessionId.value));
      if reply.Fetched? {
        result := reply.data;
      } else {
        browser.Emit(Notify(Error, "Failed to fetch assessment results", None));
        browser.Emit(Navigate("/assessment"));
      }
      loading := false;
    }
  }
}
