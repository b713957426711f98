/**
 * The applicant's list of visa applications (app/applications/page.tsx):
 * a status filter and a search box narrowing the list, the empty-state
 * choice, status labels and styles, and the recent-activity excerpt.
 */
module Applications {
  import opened Wrappers
  import opened Seqs
  import opened Text

  datatype HistoryEntry = HistoryEntry(status: string, timestamp: string, notes: Option<string>)

  datatype Application = Application(
    id: string,
    applicationType: string,
    destinationCountry: string,
    status: string,
    statusHistory: seq<HistoryEntry>)

  const AllStatuses := "all"

  /** One card passes the filter bar: its status (unless `all`) and a case-insensitive search on type or destination. */
  predicate Shown(app: Application, statusFilter: string, query: string) {
    && (statusFilter == AllStatuses || app.status == statusFilter)
    && (Contains(Lower(app.applicationType), Lower(query)) || Contains(Lower(app.destinationCountry), Lower(query)))
  }

  /** `filteredApplications`. */
  function Filtered(apps: seq<Application>, statusFilter: string, query: string): seq<Application> {
    Filter(apps, (a: Application) => Shown(a, statusFilter, query))
  }

  /** The filtered list is the shown cards, in their original order, and nothing else. */
  lemma FilteredContents(apps: seq<Application>, statusFilter: string, query: string)
    ensures IsSubsequence(Filtered(apps, statusFilter, query), apps)
    ensures forall a :: a in Filtered(apps, statusFilter, query) <==> a in apps && Shown(a, statusFilter, query)
  {
    FilterIsSubsequence(apps, (a: Application) => Shown(a, statusFilter, query));
  }

  /** Filtering the filtered list again changes nothing. */
  lemma FilteredIdempotent(apps: seq<Application>, statusFilter: string, query: string)
    ensures Filtered(Filtered(apps, statusFilter, query), statusFilter, query) == Filtered(apps, statusFilter, query)
  {
    FilterIdempotent(apps, (a: Application) => Shown(a, statusFilter, query));
  }

  /** With status `all` and an empty search, every application is listed. */
  lemma FilteredShowsAll(apps: seq<Application>)
    ensures Filtered(apps, AllStatuses, "") == apps
  {
    forall i | 0 <= i < |apps|
      ensures Shown(apps[i], AllStatuses, "")
    {
      ContainsEmpty(Lower(apps[i].applicationType));
    }
    FilterKeepsAll(apps, (a: Application) => Shown(a, AllStatuses, ""));
  }

  /** Narrowing the status from `all` to one status never adds a card. */
  lemma StatusNarrows(apps: seq<Application>, status: string, query: string)
    ensures IsSubsequence(Filtered(apps, status, query), Filtered(apps, AllStatuses, query))
    ensures |Filtered(apps, status, query)| <= |Filtered(apps, AllStatuses, query)|
  {
    var p := (a: Application) => Shown(a, AllStatuses, query);
    var q := (a: Application) => Shown(a, status, query);
    NarrowerFilter(apps, p, q);
  }

  /** A stronger predicate selects a sub-list of what a weaker one selects. */
  lemma {:induction false} NarrowerFilter<T>(s: seq<T>, p: T -> bool, q: T -> bool)
    requires forall i :: 0 <= i < |s| ==> q(s[i]) ==> p(s[i])
    ensures IsSubsequence(Filter(s, q), Filter(s, p))
    ensures |Filter(s, q)| <= |Filter(s, p)|
  {
    if s == [] {
    } else {
      NarrowerFilter(s[1..], p, q);
      if q(s[0]) {
        assert ([s[0]] + Filter(s[1..], q))[1..] == Filter(s[1..], q);
        assert ([s[0]] + Filter(s[1..], p))[1..] == Filter(s[1..], p);
      } else if p(s[0]) {
        assert ([s[0]] + Filter(s[1..], p))[1..] == Filter(s[1..], p);
      }
    }
  }

  /** What the list area shows: the cards, or an empty state. */
  datatype Listing =
    | Cards(apps: seq<Application>)
    | EmptyState(heading: string, hint: string, offerCreate: bool)

  function ListingOf(apps: seq<Application>, statusFilter: string, query: string): (l: Listing)
    ensures l.Cards? <==> Filtered(apps, statusFilter, query) != []
    ensures l.Cards? ==> l.apps == Filtered(apps, statusFilter, query)
    ensures l.EmptyState? ==> (l.heading == "No Applications Yet" <==> apps == [])
    ensures l.EmptyState? ==> (l.heading == "No Matching Applications" <==> apps != [])
    ensures l.EmptyState? ==> (l.offerCreate <==> apps == [])
  {
    var shown := Filtered(apps, statusFilter, query);
    if shown != [] then Cards(shown)
    else if apps == [] then
      EmptyState("No Applications Yet", "Start your visa application journey by creating a new application", true)
    else
      EmptyState("No Matching Applications", "Try adjusting your filters or search query", false)
  }

  /** With nothing fetched, the page always invites the first application. */
  lemma NoApplicationsInvitesCreate(statusFilter: string, query: string)
    ensures ListingOf([], statusFilter, query) ==
              EmptyState("No Applications Yet", "Start your visa application journey by creating a new application", true)
  {
  }

  /** The status as displayed: `status.replace('_', ' ')` turns only the first underscore into a space. */
  function StatusLabel(status: string): (shown: string)
    ensures |shown| == |status|
    ensures forall i :: 0 <= i < |status| ==>
              shown[i] == if status[i] == '_' && '_' !in status[..i] then ' ' else status[i]
  {
    ReplaceFirst(status, '_', ' ')
  }

  /** The download button is offered for every application past its draft. */
  predicate OffersDownload(app: Application) {
    app.status != "draft"
  }

  datatype Glyph = CheckCircle | CrossCircle | Clock | Document

  /** A glyph and the colour it is drawn in. */
  datatype Icon = Icon(glyph: Glyph, tint: string)

  /** The card icon; anything not approved, rejected, under review or submitted gets the plain document. */
  function StatusIcon(status: string): (icon: Icon)
    ensures icon.glyph == Document <==> status !in ["approved", "rejected", "under_review", "submitted"]
    ensures icon.glyph == CheckCircle <==> status == "approved" || status == "submitted"
    ensures status == "approved" ==> icon.tint == "text-success-600"
    ensures status == "submitted" ==> icon.tint == "text-info-600"
  {
    match status
    case "approved" => Icon(CheckCircle, "text-success-600")
    case "rejected" => Icon(CrossCircle, "text-error-600")
    case "under_review" => Icon(Clock, "text-warning-600")
    case "submitted" => Icon(CheckCircle, "text-info-600")
    case _ => Icon(Document, "text-primary-600")
  }

  /** An application whose unknown status is styled like a draft still offers the download. */
  lemma DownloadPastDraft(app: Application)
    ensures app.status !in ["draft", "approved", "rejected", "under_review", "submitted"] ==>
              StatusColor(app.status) == StatusColor("draft") && OffersDownload(app)
  {
  }

  /** The badge style; anything not approved, rejected, under review or submitted is styled as a draft. */
  function StatusColor(status: string): (color: string)
    ensures color == "text-primary-600 bg-primary-50 border-primary-200" <==>
              status !in ["approved", "rejected", "under_review", "submitted"]
  {
    match status
    case "approved" => "text-success-600 bg-success-50 border-success-200"
    case "rejected" => "text-error-600 bg-error-50 border-error-200"
    case "under_review" => "text-warning-600 bg-warning-50 border-warning-200"
    case "submitted" => "text-info-600 bg-info-50 border-info-200"
    case _ => "text-primary-600 bg-primary-50 border-primary-200"
  }

  /** The dot beside a history entry; anything not approved, rejected or under review is blue. */
  function HistoryDot(status: string): (color: string)
    ensures color == "bg-info-600" <==> status !in ["approved", "rejected", "under_review"]
  {
    if status == "approved" then "bg-success-600"
    else if status == "rejected" then "bg-error-600"
    else if status == "under_review" then "bg-warning-600"
    else "bg-info-600"
  }

  /** Recent activity: the last three history entries, newest first. */
  function RecentActivity(history: seq<HistoryEntry>): (recent: seq<HistoryEntry>)
    ensures |recent| == if |history| < 3 then |history| else 3
    ensures forall i :: 0 <= i < |recent| ==> recent[i] == history[|history| - 1 - i]
  {
    Reverse(LastN(history, 3))
  }

  /** Short histories are shown whole, newest first. */
  lemma RecentActivityShort(history: seq<HistoryEntry>)
    requires |history| <= 3
    ensures RecentActivity(history) == Reverse(history)
  {
  }
}
