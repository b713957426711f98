/**
 * The applicant dashboard (app/dashboard/page.tsx): four counters over the
 * fetched applications, the badges of each application, and the bounce to
 * `/login` for a visitor who is not signed in.
 */
module Dashboard {
  import opened Wrappers
  import opened Seqs

  datatype Payment = Payment(status: string, amount: int)

  datatype Application = Application(id: string, status: string, payment: Option<Payment>)

  const InProgressStatuses := ["draft", "submitted", "under_review"]

  predicate IsInProgress(a: Application) {
    a.status in InProgressStatuses
  }

  predicate IsApproved(a: Application) {
    a.status == "approved"
  }

  predicate IsPaid(a: Application) {
    a.payment.Some? && a.payment.value.status == "succeeded"
  }

  /** `applications?.length || 0`: the query's data may be absent. */
  function Total(apps: Option<seq<Application>>): (n: nat)
    ensures apps.None? ==> n == 0
    ensures apps.Some? ==> n == |apps.value|
  {
    if apps.Some? then |apps.value| else 0
  }

  /** How many applications satisfy `p`; none when the data is absent. */
  function Count(apps: Option<seq<Application>>, p: Application -> bool): (n: nat)
    ensures n <= Total(apps)
  {
    if apps.Some? then |Filter(apps.value, p)| else 0
  }

  /** The "In Progress" card: drafts, submitted and under-review applications. */
  function InProgress(apps: Option<seq<Application>>): (n: nat)
    ensures n <= Total(apps)
    ensures apps.Some? ==> (n == 0 <==> forall i :: 0 <= i < |apps.value| ==> apps.value[i].status !in InProgressStatuses)
    ensures apps.Some? ==> (n == |apps.value| <==> forall i :: 0 <= i < |apps.value| ==> apps.value[i].status in InProgressStatuses)
  {
    if apps.Some? then CountsExact(apps.value, IsInProgress); Count(apps, IsInProgress) else 0
  }

  /** The "Approved" card. */
  function Approved(apps: Option<seq<Application>>): (n: nat)
    ensures n <= Total(apps)
    ensures apps.Some? ==> (n == 0 <==> forall i :: 0 <= i < |apps.value| ==> apps.value[i].status != "approved")
    ensures apps.Some? ==> (n == |apps.value| <==> forall i :: 0 <= i < |apps.value| ==> apps.value[i].status == "approved")
  {
    if apps.Some? then CountsExact(apps.value, IsApproved); Count(apps, IsApproved) else 0
  }

  /** The "Paid" card: applications with a payment that succeeded. */
  function Paid(apps: Option<seq<Application>>): (n: nat)
    ensures n <= Total(apps)
    ensures apps.Some? ==> (n == 0 <==> forall i :: 0 <= i < |apps.value| ==> !IsPaid(apps.value[i]))
    ensures apps.Some? ==> (n == |apps.value| <==> forall i :: 0 <= i < |apps.value| ==> IsPaid(apps.value[i]))
  {
    if apps.Some? then CountsExact(apps.value, IsPaid); Count(apps, IsPaid) else 0
  }

  /** No application is both in progress and approved, so the two counters never exceed the total. */
  lemma InProgressAndApprovedWithinTotal(apps: Option<seq<Application>>)
    ensures InProgress(apps) + Approved(apps) <= Total(apps)
  {
    if apps.Some? {
      FilterDisjointLength(apps.value, IsInProgress, IsApproved);
    }
  }

  /** The counters count exactly the applications of their kind. */
  lemma CountsExact(apps: seq<Application>, p: Application -> bool)
    ensures Count(Some(apps), p) == 0 <==> forall i :: 0 <= i < |apps| ==> !p(apps[i])
    ensures Count(Some(apps), p) == |apps| <==> forall i :: 0 <= i < |apps| ==> p(apps[i])
  {
    if forall i :: 0 <= i < |apps| ==> p(apps[i]) {
      FilterKeepsAll(apps, p);
    } else {
      FilterLengthMissing(apps, p);
    }
    if Count(Some(apps), p) != 0 {
      var r := Filter(apps, p);
      assert r[0] in r;
    }
  }

  /** An element the predicate rejects makes the filtered list shorter than the list. */
  lemma {:induction false} FilterLengthMissing<T>(s: seq<T>, p: T -> bool)
    requires exists i :: 0 <= i < |s| && !p(s[i])
    ensures |Filter(s, p)| < |s|
  {
    if p(s[0]) {
      var i :| 0 <= i < |s| && !p(s[i]);
      assert s[1..][i - 1] == s[i];
      FilterLengthMissing(s[1..], p);
    }
  }

  /** The payment badge: none without a payment, `Paid` exactly for a succeeded one. */
  function PaymentBadge(payment: Option<Payment>): (badge: Option<string>)
    ensures badge.None? <==> payment.None?
    ensures badge.Some? ==> (badge.value == "Paid" <==> payment.value.status == "succeeded")
    ensures badge.Some? ==> (badge.value == "Pending" <==> payment.value.status != "succeeded")
  {
    if payment.None? then None
    else if payment.value.status == "succeeded" then Some("Paid")
    else Some("Pending")
  }

  /** A card is counted as paid exactly when its badge reads `Paid`. */
  lemma PaidMatchesBadge(a: Application)
    ensures IsPaid(a) <==> PaymentBadge(a.payment) == Some("Paid")
  {
  }

  datatype Glyph = Clock | Alert | Check | Cross

  datatype Icon = Icon(glyph: Glyph, tint: string)

  const KnownStatuses := ["draft", "submitted", "under_review", "approved", "rejected"]

  /** The icon of a card: a check only for approved, a cross only for rejected, an alert only for submitted. */
  function StatusIcon(status: string): (icon: Icon)
    ensures icon.glyph == Check <==> status == "approved"
    ensures icon.glyph == Cross <==> status == "rejected"
    ensures icon.glyph == Alert <==> status == "submitted"
    ensures icon == Icon(Clock, "text-gray-500") <==> status !in KnownStatuses[1..]
  {
    match status
    case "draft" => Icon(Clock, "text-gray-500")
    case "submitted" => Icon(Alert, "text-blue-500")
    case "under_review" => Icon(Clock, "text-yellow-500")
    case "approved" => Icon(Check, "text-green-500")
    case "rejected" => Icon(Cross, "text-red-500")
    case _ => Icon(Clock, "text-gray-500")
  }

  /** The badge colour: gray exactly for drafts and unknown statuses. */
  function StatusColor(status: string): (color: string)
    ensures color == "bg-gray-100 text-gray-800" <==> status !in KnownStatuses[1..]
    ensures status == "approved" ==> color == "bg-green-100 text-green-800"
    ensures status == "rejected" ==> color == "bg-red-100 text-red-800"
  {
    match status
    case "draft" => "bg-gray-100 text-gray-800"
    case "submitted" => "bg-blue-100 text-blue-800"
    case "under_review" => "bg-yellow-100 text-yellow-800"
    case "approved" => "bg-green-100 text-green-800"
    case "rejected" => "bg-red-100 text-red-800"
    case _ => "bg-gray-100 text-gray-800"
  }

  /** An unknown status looks exactly like a draft; each known status other than a draft looks different from it. */
  lemma UnknownLooksLikeDraft(status: string)
    ensures status !in KnownStatuses ==> StatusIcon(status) == StatusIcon("draft") && StatusColor(status) == StatusColor("draft")
    ensures status in KnownStatuses && status != "draft" ==> StatusColor(status) != StatusColor("draft")
  {
  }

  /** The effect that sends a visitor without a session to `/login` once the session check is over. */
  function LoginRedirect(authLoading: bool, signedIn: bool): (target: Option<string>)
    ensures target.Some? <==> !authLoading && !signedIn
    ensures target.Some? ==> target.value == "/login"
  {
    if !authLoading && !signedIn then Some("/login") else None
  }
}
