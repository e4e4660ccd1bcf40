/**
 * The role-aware dashboard (dashboard/page.tsx): which tabs a role may
 * see, the tab strip, the searchable event table, the overview figures,
 * the status badges and the workshop "full" badge. The page's types are
 * its own: seven roles, six event statuses, four submission statuses.
 */
module Dashboard {
  import opened Text
  import opened Lists

  datatype Role = SUPER_ADMIN | ORGANIZER | AUTHOR | COMMITTEE | PARTICIPANT | SPEAKER | WORKSHOP_HOST

  datatype EventStatus = DRAFT | CFP_OPEN | REVIEW | PUBLISHED | ONGOING | CLOSED

  datatype SubmissionStatus = PENDING | ACCEPTED | REJECTED | REVISION

  datatype PaymentStatus = UNPAID | PAID_ONSITE | PAID

  datatype Tab =
    | Overview | Events | Submissions | Evaluations | Registrations | Program
    | Workshops | QaSurveys | Attestations | Stats | Users

  /** The user the page renders for: a fixed organizer until authentication exists. */
  const CurrentRole: Role := ORGANIZER

  /* ---------- badges ---------- */

  datatype Kind = Neutral | Info | Success | Warning | Danger

  datatype Meta = Meta(caption: string, kind: Kind)

  function EventStatusMeta(s: EventStatus): Meta {
    match s
    case DRAFT => Meta("Draft", Neutral)
    case CFP_OPEN => Meta("CFP Open", Info)
    case REVIEW => Meta("Under Review", Warning)
    case PUBLISHED => Meta("Published", Info)
    case ONGOING => Meta("Ongoing", Success)
    case CLOSED => Meta("Closed", Neutral)
  }

  function SubmissionStatusMeta(s: SubmissionStatus): Meta {
    match s
    case PENDING => Meta("Pending", Warning)
    case ACCEPTED => Meta("Accepted", Success)
    case REJECTED => Meta("Rejected", Danger)
    case REVISION => Meta("Revision", Info)
  }

  function PaymentStatusMeta(s: PaymentStatus): Meta {
    match s
    case UNPAID => Meta("Unpaid", Warning)
    case PAID_ONSITE => Meta("Pay on site", Info)
    case PAID => Meta("Paid", Success)
  }

  /**
   * Each badge caption names one status; the tones are shared: event
   * statuses pair up on neutral (DRAFT, CLOSED) and info (CFP_OPEN,
   * PUBLISHED), while submission and payment tones are all different.
   */
  lemma BadgesDistinguish(e1: EventStatus, e2: EventStatus, s1: SubmissionStatus, s2: SubmissionStatus,
                          p1: PaymentStatus, p2: PaymentStatus)
    ensures EventStatusMeta(e1).caption == EventStatusMeta(e2).caption <==> e1 == e2
    ensures SubmissionStatusMeta(s1).kind == SubmissionStatusMeta(s2).kind <==> s1 == s2
    ensures PaymentStatusMeta(p1).kind == PaymentStatusMeta(p2).kind <==> p1 == p2
    ensures EventStatusMeta(DRAFT).kind == EventStatusMeta(CLOSED).kind
    ensures EventStatusMeta(CFP_OPEN).kind == EventStatusMeta(PUBLISHED).kind
  {
    assert "Draft" != "Closed" && "Published" != "Ongoing" && "CFP Open" != "Closed";
  }

  /* ---------- tab access ---------- */

  /* The role lists of `canSeeTab`; only membership in them is ever asked, so they are sets here. */
  const OrganizerTabs: set<Tab> :=
    {Overview, Events, Submissions, Evaluations, Registrations, Program, Workshops, QaSurveys, Attestations, Stats}
  const CommitteeTabs: set<Tab> := {Overview, Evaluations, Submissions}
  const AuthorTabs: set<Tab> := {Overview, Submissions, Attestations}
  const ParticipantTabs: set<Tab> := {Overview, Registrations, Attestations}
  const SuperAdminTabs: set<Tab> := OrganizerTabs + {Users}
  const MinimalTabs: set<Tab> := {Overview, Program}

  /** `canSeeTab(role, tab)`: membership in the role's tab list; speakers and workshop hosts get the minimal list. */
  predicate CanSeeTab(role: Role, tab: Tab) {
    match role
    case SUPER_ADMIN => tab in SuperAdminTabs
    case ORGANIZER => tab in OrganizerTabs
    case COMMITTEE => tab in CommitteeTabs
    case AUTHOR => tab in AuthorTabs
    case PARTICIPANT => tab in ParticipantTabs
    case _ => tab in MinimalTabs
  }

  /**
   * The access table: the super admin sees exactly the organizer's tabs
   * plus Users; Users is the super admin's alone; every role sees Overview;
   * the smaller roles see exactly their three or two tabs.
   */
  lemma TabAccess(role: Role, tab: Tab)
    ensures CanSeeTab(SUPER_ADMIN, tab) <==> CanSeeTab(ORGANIZER, tab) || tab == Users
    ensures CanSeeTab(role, Users) <==> role == SUPER_ADMIN
    ensures CanSeeTab(role, Overview)
    ensures CanSeeTab(COMMITTEE, tab) <==> tab in {Overview, Evaluations, Submissions}
    ensures CanSeeTab(AUTHOR, tab) <==> tab in {Overview, Submissions, Attestations}
    ensures CanSeeTab(PARTICIPANT, tab) <==> tab in {Overview, Registrations, Attestations}
    ensures role in {SPEAKER, WORKSHOP_HOST} ==> (CanSeeTab(role, tab) <==> tab in {Overview, Program})
  {
  }

  /** The strip's tabs, in order: the organizer's ten, then Users. */
  const StripTabs: seq<Tab> :=
    [Overview, Events, Submissions, Evaluations, Registrations, Program, Workshops, QaSurveys, Attestations, Stats]
  const AllTabs: seq<Tab> := StripTabs + [Users]

  /** The strip button's caption and hint. */
  function TabCaption(t: Tab): (string, string) {
    match t
    case Overview => ("Overview", "Stats + activity")
    case Events => ("Events", "Create/configure events")
    case Submissions => ("Submissions", "CFP + tracking")
    case Evaluations => ("Evaluations", "Review & decisions")
    case Registrations => ("Registrations", "Participants & payments")
    case Program => ("Program", "Sessions & scheduling")
    case Workshops => ("Workshops", "Capacity + materials")
    case QaSurveys => ("Q&A / Surveys", "Interaction & feedback")
    case Attestations => ("Attestations", "Generate certificates")
    case Stats => ("Statistics", "Reports & KPIs")
    case Users => ("Users", "Platform accounts")
  }

  function SeesTab(role: Role): Tab -> bool {
    t => CanSeeTab(role, t)
  }

  /** `visibleTabs`: the strip filtered by `canSeeTab` for `role`. */
  function VisibleTabs(role: Role): seq<Tab> {
    Filter(AllTabs, SeesTab(role))
  }

  /** The strip shows exactly the tabs the role may see, in strip order. */
  lemma VisibleTabsSpec(role: Role)
    ensures forall t :: t in VisibleTabs(role) <==> CanSeeTab(role, t)
  {
    FilterMembers(AllTabs, SeesTab(role));
    forall t ensures t in AllTabs {
      TabInStrip(t);
    }
  }

  /** The strip keeps its order for every role. */
  lemma VisibleTabsInOrder(role: Role)
    ensures IsSubsequence(VisibleTabs(role), AllTabs)
  {
    FilterIsSubsequence(AllTabs, SeesTab(role));
  }

  /** Every tab has a button on the strip. */
  lemma TabInStrip(t: Tab)
    ensures t in AllTabs
  {
    var i := match t
      case Overview => 0 case Events => 1 case Submissions => 2 case Evaluations => 3
      case Registrations => 4 case Program => 5 case Workshops => 6 case QaSurveys => 7
      case Attestations => 8 case Stats => 9 case Users => 10;
    assert AllTabs[i] == t;
  }

  /** For the page's organizer the strip is every tab but Users, in order. */
  lemma CurrentUserTabs()
    ensures VisibleTabs(CurrentRole) == StripTabs
  {
    var p := SeesTab(CurrentRole);
    assert !p(Users);
    assert [Users][1..] == [];
    assert Filter([Users], p) == [];
    assert forall t | t != Users :: p(t);
    assert forall i | 0 <= i < |StripTabs| :: StripTabs[i] != Users;
    FilterKeepsAll(StripTabs, p);
    FilterAppend(StripTabs, [Users], p);
  }

  /* ---------- the event table ---------- */

  datatype EventItem = EventItem(
    id: string,
    title: string,
    theme: string,
    location: string,
    startDate: string,
    endDate: string,
    status: EventStatus,
    participantsCount: int,
    submissionsCount: int)

  /** The status drop-down: "all" or one status. */
  datatype StatusFilter = AnyStatus | StatusIs(status: EventStatus)

  predicate StatusMatches(filter: StatusFilter, e: EventItem) {
    filter.AnyStatus? || e.status == filter.status
  }

  /** The text a search is looked up in: "title theme location", lower-cased. */
  function SearchText(e: EventItem): string {
    ToLower(e.title + " " + e.theme + " " + e.location)
  }

  function StatusPasses(filter: StatusFilter): EventItem -> bool {
    e => StatusMatches(filter, e)
  }

  function Mentions(q: string): EventItem -> bool {
    e => Includes(SearchText(e), q)
  }

  /** `filteredEvents`: by status first; a blank trimmed search stops there, otherwise a substring search. */
  function FilteredEvents(events: seq<EventItem>, filter: StatusFilter, search: string): seq<EventItem> {
    var byStatus := if filter.AnyStatus? then events else Filter(events, StatusPasses(filter));
    var q := ToLower(Trim(search));
    if q == "" then byStatus
    else Filter(byStatus, Mentions(q))
  }

  /**
   * "all" with a blank search shows the list as is; in general an event
   * is shown exactly when its status passes the drop-down and, for a
   * non-blank search, the lower-cased trimmed query occurs in its text;
   * the order of the list is kept.
   */
  lemma FilteredEventsSpec(events: seq<EventItem>, filter: StatusFilter, search: string)
    ensures filter.AnyStatus? && AllWhitespace(search) ==> FilteredEvents(events, filter, search) == events
    ensures forall e :: e in FilteredEvents(events, filter, search) <==>
      && e in events
      && StatusMatches(filter, e)
      && (AllWhitespace(search) || Includes(SearchText(e), ToLower(Trim(search))))
  {
    TrimEmptyIffBlank(search);
    var q := ToLower(Trim(search));
    assert q == "" <==> Trim(search) == "";
    var byStatus := if filter.AnyStatus? then events else Filter(events, StatusPasses(filter));
    if filter.StatusIs? {
      FilterMembers(events, StatusPasses(filter));
    }
    if q != "" {
      FilterMembers(byStatus, Mentions(q));
    }
  }

  /** Whether the table's two tests let `e` through. */
  predicate Listed(e: EventItem, filter: StatusFilter, search: string) {
    StatusMatches(filter, e) && (AllWhitespace(search) || Includes(SearchText(e), ToLower(Trim(search))))
  }

  /**
   * A blank search, for any status, gives the status-filtered list as is;
   * and every event that passes appears as often as in the event list.
   */
  lemma FilteredEventsCounts(events: seq<EventItem>, filter: StatusFilter, search: string)
    ensures AllWhitespace(search) ==> FilteredEvents(events, filter, search) == FilteredEvents(events, filter, "")
    ensures forall e ::
      multiset(FilteredEvents(events, filter, search))[e] == if Listed(e, filter, search) then multiset(events)[e] else 0
  {
    TrimEmptyIffBlank(search);
    TrimEmptyIffBlank("");
    var q := ToLower(Trim(search));
    assert q == "" <==> Trim(search) == "";
    var byStatus := if filter.AnyStatus? then events else Filter(events, StatusPasses(filter));
    if filter.StatusIs? {
      FilterMultiset(events, StatusPasses(filter));
    }
    if q != "" {
      FilterMultiset(byStatus, Mentions(q));
    }
  }

  /** The table keeps the order of the event list. */
  lemma FilteredEventsInOrder(events: seq<EventItem>, filter: StatusFilter, search: string)
    ensures IsSubsequence(FilteredEvents(events, filter, search), events)
  {
    var q := ToLower(Trim(search));
    var byStatus := if filter.AnyStatus? then events else Filter(events, StatusPasses(filter));
    if filter.StatusIs? {
      FilterIsSubsequence(events, StatusPasses(filter));
    } else {
      SubsequenceRefl(events);
    }
    if q != "" {
      FilterIsSubsequence(byStatus, Mentions(q));
      SubsequenceTrans(FilteredEvents(events, filter, search), byStatus, events);
    }
  }

  /* ---------- the overview figures ---------- */

  datatype DashSubmission = DashSubmission(
    id: string,
    eventId: string,
    title: string,
    submissionType: string,
    status: SubmissionStatus,
    authorName: string)

  datatype OverviewFigures = OverviewFigures(
    totalEvents: nat,
    totalParticipants: int,
    totalSubmissions: int,
    ongoing: nat,
    cfpOpen: nat,
    accepted: nat,
    pending: nat)

  function Participants(e: EventItem): int { e.participantsCount }

  function SubmissionsCount(e: EventItem): int { e.submissionsCount }

  function EventHas(status: EventStatus): EventItem -> bool {
    (e: EventItem) => e.status == status
  }

  function SubmissionHas(status: SubmissionStatus): DashSubmission -> bool {
    (s: DashSubmission) => s.status == status
  }

  function OverviewOf(events: seq<EventItem>, submissions: seq<DashSubmission>): OverviewFigures {
    OverviewFigures(
      |events|,
      Sum(events, Participants),
      Sum(events, SubmissionsCount),
      Count(events, EventHas(ONGOING)),
      Count(events, EventHas(CFP_OPEN)),
      Count(submissions, SubmissionHas(ACCEPTED)),
      Count(submissions, SubmissionHas(PENDING)))
  }

  /**
   * The status counts never exceed the list they count (ongoing and
   * CFP-open events together, accepted and pending submissions together),
   * and with non-negative head-counts the participant total bounds every
   * event's participants.
   */
  lemma OverviewBounds(events: seq<EventItem>, submissions: seq<DashSubmission>)
    ensures var o := OverviewOf(events, submissions);
      o.ongoing + o.cfpOpen <= o.totalEvents && o.accepted + o.pending <= |submissions|
    ensures (forall i | 0 <= i < |events| :: events[i].participantsCount >= 0) ==>
      forall i | 0 <= i < |events| :: events[i].participantsCount <= OverviewOf(events, submissions).totalParticipants
  {
    CountDisjoint(events, EventHas(ONGOING), EventHas(CFP_OPEN));
    CountDisjoint(submissions, SubmissionHas(ACCEPTED), SubmissionHas(PENDING));
    if forall i | 0 <= i < |events| :: events[i].participantsCount >= 0 {
      SumBoundsTerms(events, Participants);
    }
  }

  /** Adding an event adds its figures to the totals. */
  lemma OverviewOfAppend(events: seq<EventItem>, e: EventItem, submissions: seq<DashSubmission>)
    ensures var o := OverviewOf(events, submissions);
      var o' := OverviewOf(events + [e], submissions);
      && o'.totalEvents == o.totalEvents + 1
      && o'.totalParticipants == o.totalParticipants + e.participantsCount
      && o'.totalSubmissions == o.totalSubmissions + e.submissionsCount
      && o'.ongoing == o.ongoing + (if e.status == ONGOING then 1 else 0)
  {
    var p := EventHas(ONGOING);
    FilterAppend(events, [e], p);
    assert (events + [e])[..|events + [e]| - 1] == events;
  }

  /* ---------- workshops ---------- */

  datatype WorkshopItem = WorkshopItem(
    id: string,
    eventId: string,
    title: string,
    hostName: string,
    date: string,
    capacity: int,
    registered: int)

  /** The capacity badge: warning when the workshop is full, success otherwise. */
  function WorkshopBadge(w: WorkshopItem): (k: Kind)
    ensures k == Warning <==> w.registered >= w.capacity
    ensures k == Warning || k == Success
  {
    var full := w.registered >= w.capacity;
    if full then Warning else Success
  }
}
