/**
 * The author's submission tracker (dashboard/author/page.tsx): a list of
 * submission records kept in local storage, a filtered and sorted view of
 * it, status counters, the list of distinct events for the event drop-down,
 * the withdraw action and the per-row action buttons.
 *
 * Timestamps (`updatedAt`, `submittedAt`) are ISO strings in the page and
 * are compared through `new Date(..).getTime()`; here they are those
 * millisecond values directly.
 */
module AuthorSubmissions {
  import opened Optional
  import opened Text
  import opened Sorting
  import opened Lists

  datatype SubmissionStatus =
    DRAFT | SUBMITTED | UNDER_REVIEW | REVISION | ACCEPTED | REJECTED | WITHDRAWN

  datatype SubmissionType = ORAL | POSTER | DISPLAY

  datatype EventStatus = CFP_OPEN | REVIEW | PUBLISHED | ONGOING | CLOSED

  datatype Track = AI | Cardiology | PublicHealth | MentalHealth

  datatype Submission = Submission(
    id: string,
    eventId: string,
    eventTitle: string,
    eventStatus: EventStatus,
    title: string,
    submissionType: SubmissionType,
    submittedAt: Option<int>,
    updatedAt: int,
    status: SubmissionStatus,
    canEdit: bool,
    canResubmit: bool,
    track: Option<Track>,
    keywords: Option<seq<string>>)

  const StorageKey: string := "author_submissions_v1"

  const AllStatuses: set<SubmissionStatus> :=
    {DRAFT, SUBMITTED, UNDER_REVIEW, REVISION, ACCEPTED, REJECTED, WITHDRAWN}

  function TrackLabel(t: Track): string {
    match t
    case AI => "AI"
    case Cardiology => "Cardiology"
    case PublicHealth => "Public Health"
    case MentalHealth => "Mental Health"
  }

  /* ---------- status badge ---------- */

  datatype Tone = Neutral | Info | Warning | Purple | Success | Danger | Muted

  datatype StatusMeta = StatusMeta(caption: string, tone: Tone)

  function MetaOf(status: SubmissionStatus): StatusMeta {
    match status
    case DRAFT => StatusMeta("Draft", Neutral)
    case SUBMITTED => StatusMeta("Submitted", Info)
    case UNDER_REVIEW => StatusMeta("Under review", Warning)
    case REVISION => StatusMeta("Revision requested", Purple)
    case ACCEPTED => StatusMeta("Accepted", Success)
    case REJECTED => StatusMeta("Rejected", Danger)
    case WITHDRAWN => StatusMeta("Withdrawn", Muted)
  }

  /** Every status has its own badge: caption and tone both tell the statuses apart. */
  lemma MetaOfDistinguishes(s1: SubmissionStatus, s2: SubmissionStatus)
    ensures MetaOf(s1).caption == MetaOf(s2).caption <==> s1 == s2
    ensures MetaOf(s1).tone == MetaOf(s2).tone <==> s1 == s2
  {
    assert "Draft" != "Submitted" && "Draft" != "Under review" && "Draft" != "Rejected";
  }

  /* ---------- filtering and ordering ---------- */

  datatype Criterion<T> = ALL | Only(value: T)

  predicate Matches<T(==)>(c: Criterion<T>, v: T) {
    c.ALL? || c.value == v
  }

  /** The search box and the three drop-downs. */
  datatype Filters = Filters(
    q: string,
    status: Criterion<SubmissionStatus>,
    eventId: Criterion<string>,
    submissionType: Criterion<SubmissionType>)

  /** The search query as compared: trimmed and lower-cased. */
  function Query(f: Filters): string {
    ToLower(Trim(f.q))
  }

  /** The text a query is searched in: title, event title, track and keywords, lower-cased. */
  function Haystack(x: Submission): string {
    var track := match x.track case Some(t) => TrackLabel(t) case None => "";
    ToLower(x.title + " " + x.eventTitle + " " + track + " " + Join(x.keywords.GetOr([]), " "))
  }

  predicate Keep(f: Filters, x: Submission) {
    && Matches(f.status, x.status)
    && Matches(f.eventId, x.eventId)
    && Matches(f.submissionType, x.submissionType)
    && (Query(f) == "" || Includes(Haystack(x), Query(f)))
  }

  function Kept(f: Filters): Submission -> bool {
    x => Keep(f, x)
  }

  /** `items.filter(...)`: the kept records, each as often as in `items`, in their original order. */
  function KeepAll(items: seq<Submission>, f: Filters): (r: seq<Submission>)
    ensures |r| <= |items|
    ensures forall x :: multiset(r)[x] == if Keep(f, x) then multiset(items)[x] else 0
    ensures IsSubsequence(r, items)
  {
    FilterMultiset(items, Kept(f));
    FilterIsSubsequence(items, Kept(f));
    Filter(items, Kept(f))
  }

  /** The comparator `b.updatedAt - a.updatedAt`: `a` may stay before `b` when it is not older. */
  predicate NewestFirst(a: Submission, b: Submission) {
    a.updatedAt >= b.updatedAt
  }

  lemma NewestFirstIsPreorder()
    ensures TotalPreorder(NewestFirst)
  {
  }

  /** Records whose `updatedAt` is `t`: the ones the comparator ranks alike. */
  function UpdatedAt(t: int): Submission -> bool {
    (x: Submission) => x.updatedAt == t
  }

  /**
   * The rows shown: the kept records, newest `updatedAt` first. The sort is
   * stable, so records updated at the same time keep their `items` order.
   */
  function Filtered(items: seq<Submission>, f: Filters): (r: seq<Submission>)
    ensures multiset(r) == multiset(KeepAll(items, f))
    ensures forall i, j | 0 <= i < j < |r| :: r[i].updatedAt >= r[j].updatedAt
    ensures forall t :: Filter(r, UpdatedAt(t)) == Filter(items, Both(Kept(f), UpdatedAt(t)))
  {
    var kept := KeepAll(items, f);
    NewestFirstIsPreorder();
    SortBySorted(kept, NewestFirst);
    forall t ensures Filter(SortBy(kept, NewestFirst), UpdatedAt(t)) == Filter(items, Both(Kept(f), UpdatedAt(t))) {
      SortByStable(kept, NewestFirst, UpdatedAt(t));
      FilterFilter(items, Kept(f), UpdatedAt(t));
    }
    SortBy(kept, NewestFirst)
  }

  /**
   * The view holds a record exactly when `items` holds it and it passes
   * every criterion, and records updated at the same time appear in the
   * order `items` has them.
   */
  lemma FilteredSpec(items: seq<Submission>, f: Filters)
    ensures forall x :: x in Filtered(items, f) <==> x in items && Keep(f, x)
    ensures forall t :: IsSubsequence(Filter(Filtered(items, f), UpdatedAt(t)), items)
  {
    var r := Filtered(items, f);
    forall x ensures x in r <==> x in items && Keep(f, x) {
      assert x in r <==> multiset(r)[x] > 0;
      assert x in items <==> multiset(items)[x] > 0;
    }
    forall t ensures IsSubsequence(Filter(r, UpdatedAt(t)), items) {
      FilterIsSubsequence(items, Both(Kept(f), UpdatedAt(t)));
    }
  }

  /** Every shown record satisfies each criterion that is not ALL, by exact equality. */
  lemma FilteredMeetsCriteria(items: seq<Submission>, f: Filters, x: Submission)
    requires x in Filtered(items, f)
    ensures x in items
    ensures f.status.Only? ==> x.status == f.status.value
    ensures f.eventId.Only? ==> x.eventId == f.eventId.value
    ensures f.submissionType.Only? ==> x.submissionType == f.submissionType.value
    ensures Query(f) != "" ==> Includes(Haystack(x), Query(f))
  {
    FilteredSpec(items, f);
  }

  /** A blank search with every drop-down on ALL shows every record (reordered, nothing dropped). */
  lemma BlankSearchKeepsAll(items: seq<Submission>, q: string)
    requires AllWhitespace(q)
    ensures multiset(Filtered(items, Filters(q, ALL, ALL, ALL))) == multiset(items)
  {
    TrimEmptyIffBlank(q);
    var f := Filters(q, ALL, ALL, ALL);
    assert multiset(KeepAll(items, f)) == multiset(items);
  }

  /**
   * With a non-blank search, a record that passes the drop-downs is shown
   * exactly when the trimmed, lower-cased query occurs in its haystack.
   */
  lemma SearchDecides(items: seq<Submission>, f: Filters, x: Submission)
    requires x in items && !AllWhitespace(f.q)
    requires Matches(f.status, x.status) && Matches(f.eventId, x.eventId)
    requires Matches(f.submissionType, x.submissionType)
    ensures x in Filtered(items, f) <==> Includes(Haystack(x), ToLower(Trim(f.q)))
  {
    TrimEmptyIffBlank(f.q);
    FilteredSpec(items, f);
  }

  /* ---------- counters ---------- */

  datatype Counters = Counters(total: nat, accepted: nat, review: nat, revision: nat, drafts: nat)

  function HasStatusIn(statuses: set<SubmissionStatus>): Submission -> bool {
    (x: Submission) => x.status in statuses
  }

  /** How many records have a status in `statuses`. */
  function CountIn(items: seq<Submission>, statuses: set<SubmissionStatus>): (n: nat)
    ensures n <= |items|
  {
    Count(items, HasStatusIn(statuses))
  }

  function CountersOf(items: seq<Submission>): Counters {
    Counters(
      CountIn(items, AllStatuses - {WITHDRAWN}),
      CountIn(items, {ACCEPTED}),
      CountIn(items, {UNDER_REVIEW, SUBMITTED}),
      CountIn(items, {REVISION}),
      CountIn(items, {DRAFT}))
  }

  lemma {:induction false} CountInUnion(items: seq<Submission>, a: set<SubmissionStatus>, b: set<SubmissionStatus>)
    requires a !! b
    ensures CountIn(items, a + b) == CountIn(items, a) + CountIn(items, b)
  {
    if items != [] {
      CountInUnion(items[1..], a, b);
    }
  }

  lemma {:induction false} CountInAll(items: seq<Submission>)
    ensures CountIn(items, AllStatuses) == |items|
  {
    if items != [] {
      assert items[0].status in AllStatuses by {
        match items[0].status
        case DRAFT => case SUBMITTED => case UNDER_REVIEW => case REVISION =>
        case ACCEPTED => case REJECTED => case WITHDRAWN =>
      }
      CountInAll(items[1..]);
    }
  }

  /** The active total counts every record but the withdrawn ones. */
  lemma ActiveExcludesWithdrawn(items: seq<Submission>)
    ensures CountersOf(items).total + CountIn(items, {WITHDRAWN}) == |items|
  {
    CountInAll(items);
    assert AllStatuses == (AllStatuses - {WITHDRAWN}) + {WITHDRAWN};
    CountInUnion(items, AllStatuses - {WITHDRAWN}, {WITHDRAWN});
  }

  /** "In review" counts both UNDER_REVIEW and SUBMITTED. */
  lemma ReviewCountsBoth(items: seq<Submission>)
    ensures CountersOf(items).review == CountIn(items, {UNDER_REVIEW}) + CountIn(items, {SUBMITTED})
  {
    assert {UNDER_REVIEW, SUBMITTED} == {UNDER_REVIEW} + {SUBMITTED};
    CountInUnion(items, {UNDER_REVIEW}, {SUBMITTED});
  }

  /** The active total splits into drafts, in review, revision, accepted and rejected. */
  lemma ActiveSplits(items: seq<Submission>)
    ensures var c := CountersOf(items);
      c.total == c.drafts + c.review + c.revision + c.accepted + CountIn(items, {REJECTED})
  {
    var s1 := {DRAFT} + {UNDER_REVIEW, SUBMITTED};
    var s2 := s1 + {REVISION};
    var s3 := s2 + {ACCEPTED};
    assert AllStatuses - {WITHDRAWN} == s3 + {REJECTED};
    CountInUnion(items, {DRAFT}, {UNDER_REVIEW, SUBMITTED});
    CountInUnion(items, s1, {REVISION});
    CountInUnion(items, s2, {ACCEPTED});
    CountInUnion(items, s3, {REJECTED});
  }

  /* ---------- distinct events for the drop-down ---------- */

  datatype EventChoice = EventChoice(id: string, title: string)

  /** The title of the last record of event `id`: the one `Map.set` leaves behind. */
  function LastTitle(items: seq<Submission>, id: string): string {
    if items == [] then ""
    else if items[|items| - 1].eventId == id then items[|items| - 1].eventTitle
    else LastTitle(items[..|items| - 1], id)
  }

  function IdsOf(evs: seq<EventChoice>): (ids: seq<string>)
    ensures |ids| == |evs|
    ensures forall k | 0 <= k < |evs| :: ids[k] == evs[k].id
  {
    seq(|evs|, k requires 0 <= k < |evs| => evs[k].id)
  }

  /** `a.title.localeCompare(b.title)`, as a code-point order. */
  predicate TitleOrder(a: EventChoice, b: EventChoice) {
    LexLe(a.title, b.title)
  }

  lemma TitleOrderIsPreorder()
    ensures TotalPreorder(TitleOrder)
  {
    forall a: EventChoice, b: EventChoice ensures TitleOrder(a, b) || TitleOrder(b, a) {
      LexLeTotal(a.title, b.title);
    }
    forall a: EventChoice, b: EventChoice, c: EventChoice | TitleOrder(a, b) && TitleOrder(b, c)
      ensures TitleOrder(a, c)
    {
      LexLeTransitive(a.title, b.title, c.title);
    }
  }

  /** The event entries, whatever their order, are all the events of `items`, each once, with its last title. */
  predicate DescribesEvents(items: seq<Submission>, evs: seq<EventChoice>) {
    && NoDuplicates(IdsOf(evs))
    && (forall i | 0 <= i < |items| :: items[i].eventId in IdsOf(evs))
    && (forall e | e in evs :: e.title == LastTitle(items, e.id))
    && (forall e | e in evs :: exists i | 0 <= i < |items| :: items[i].eventId == e.id)
  }

  /** Reordering entries keeps the same entries and the same ids. */
  lemma PermutedChoices(a: seq<EventChoice>, b: seq<EventChoice>)
    requires multiset(a) == multiset(b)
    ensures forall e :: e in a <==> e in b
    ensures forall id :: id in IdsOf(a) <==> id in IdsOf(b)
  {
    forall e ensures e in a <==> e in b {
      assert e in a <==> e in multiset(a);
      assert e in b <==> e in multiset(b);
    }
    forall id | id in IdsOf(a) ensures id in IdsOf(b) {
      var k :| 0 <= k < |a| && IdsOf(a)[k] == id;
      assert a[k] in b;
      var m :| 0 <= m < |b| && b[m] == a[k];
      assert IdsOf(b)[m] == id;
    }
    forall id | id in IdsOf(b) ensures id in IdsOf(a) {
      var k :| 0 <= k < |b| && IdsOf(b)[k] == id;
      assert b[k] in a;
      var m :| 0 <= m < |a| && a[m] == b[k];
      assert IdsOf(a)[m] == id;
    }
  }

  /** Reordering entries with distinct ids keeps the ids distinct. */
  lemma PermutedIdsDistinct(a: seq<EventChoice>, b: seq<EventChoice>)
    requires multiset(a) == multiset(b) && NoDuplicates(IdsOf(a))
    ensures NoDuplicates(IdsOf(b))
  {
    PermutedChoices(a, b);
    assert NoDuplicates(a) by {
      forall i, j | 0 <= i < j < |a| ensures a[i] != a[j] {
        assert IdsOf(a)[i] != IdsOf(a)[j];
      }
    }
    PermutationKeepsNoDuplicates(a, b);
    forall i, j | 0 <= i < j < |b| ensures IdsOf(b)[i] != IdsOf(b)[j] {
      assert b[i] in a && b[j] in a;
      var k :| 0 <= k < |a| && a[k] == b[i];
      var m :| 0 <= m < |a| && a[m] == b[j];
      assert k != m;
      assert IdsOf(a)[k] != IdsOf(a)[m];
    }
  }

  /** Sorting the entries by title keeps them describing the same events. */
  lemma SortKeepsDescription(items: seq<Submission>, values: seq<EventChoice>)
    requires DescribesEvents(items, values)
    ensures DescribesEvents(items, SortBy(values, TitleOrder))
    ensures SortedBy(SortBy(values, TitleOrder), TitleOrder)
  {
    var evs := SortBy(values, TitleOrder);
    TitleOrderIsPreorder();
    SortBySorted(values, TitleOrder);
    PermutedChoices(values, evs);
    PermutedIdsDistinct(values, evs);
  }

  /**
   * The `events` derivation: a `Map` from event id to title filled in one
   * pass over `items`, then its entries sorted by title. The result has one
   * entry per distinct event id, titled as the last record of that event.
   */
  method DistinctEvents(items: seq<Submission>) returns (evs: seq<EventChoice>)
    ensures DescribesEvents(items, evs)
    ensures SortedBy(evs, TitleOrder)
  {
    var order: seq<string> := [];
    var titles: map<string, string> := map[];
    for i := 0 to |items|
      invariant NoDuplicates(order)
      invariant forall k :: k in titles <==> k in order
      invariant forall j | 0 <= j < i :: items[j].eventId in titles
      invariant forall k | k in titles :: exists j | 0 <= j < i :: items[j].eventId == k
      invariant forall k | k in titles :: titles[k] == LastTitle(items[..i], k)
    {
      var it := items[i];
      assert items[..i + 1][..i] == items[..i];
      if it.eventId !in titles {
        order := order + [it.eventId];
      }
      titles := titles[it.eventId := it.eventTitle];
    }
    assert items[..|items|] == items;
    var values := seq(|order|, k requires 0 <= k < |order| => EventChoice(order[k], titles[order[k]]));
    assert IdsOf(values) == order;
    assert forall e | e in values :: e.id in titles && e.title == titles[e.id];
    SortKeepsDescription(items, values);
    evs := SortBy(values, TitleOrder);
  }

  /* ---------- withdraw ---------- */

  /** Everything but the status, the two flags and `updatedAt` is the same. */
  predicate SameDescription(a: Submission, b: Submission) {
    && a.id == b.id && a.eventId == b.eventId && a.eventTitle == b.eventTitle
    && a.eventStatus == b.eventStatus && a.title == b.title
    && a.submissionType == b.submissionType && a.submittedAt == b.submittedAt
    && a.track == b.track && a.keywords == b.keywords
  }

  predicate HasId(items: seq<Submission>, id: string) {
    exists i | 0 <= i < |items| :: items[i].id == id
  }

  /** `prev.map(...)`: every record with id `id` withdrawn at time `now`, the rest untouched. */
  function WithdrawAll(items: seq<Submission>, id: string, now: int): (r: seq<Submission>)
    ensures |r| == |items|
    ensures forall i | 0 <= i < |items| && items[i].id != id :: r[i] == items[i]
    ensures forall i | 0 <= i < |items| && items[i].id == id ::
      && r[i].status == WITHDRAWN && !r[i].canEdit && !r[i].canResubmit
      && r[i].updatedAt == now && SameDescription(r[i], items[i])
  {
    seq(|items|, i requires 0 <= i < |items| =>
      if items[i].id == id
      then items[i].(status := WITHDRAWN, canEdit := false, canResubmit := false, updatedAt := now)
      else items[i])
  }

  /** Withdrawing an id that no record has changes nothing. */
  lemma WithdrawAbsent(items: seq<Submission>, id: string, now: int)
    requires !HasId(items, id)
    ensures WithdrawAll(items, id, now) == items
  {
  }

  /** Withdrawing twice leaves every record as the second call's timestamp says, statuses as after the first. */
  lemma WithdrawTwice(items: seq<Submission>, id: string, now1: int, now2: int)
    ensures WithdrawAll(WithdrawAll(items, id, now1), id, now2) == WithdrawAll(items, id, now2)
  {
  }

  /* ---------- action buttons ---------- */

  predicate ShowsWithdraw(x: Submission) {
    x.status != WITHDRAWN && x.status != ACCEPTED
  }

  predicate ShowsEdit(x: Submission) {
    x.canEdit && x.status == DRAFT
  }

  predicate ShowsResubmit(x: Submission) {
    x.canResubmit && x.status == REVISION
  }

  /** A withdrawn record offers no action but View. */
  lemma WithdrawnOffersNothing(items: seq<Submission>, id: string, now: int, i: int)
    requires 0 <= i < |items| && items[i].id == id
    ensures var x := WithdrawAll(items, id, now)[i];
      !ShowsWithdraw(x) && !ShowsEdit(x) && !ShowsResubmit(x)
  {
  }

  /** The stored flags agree with the status: edit only for drafts, resubmit only under revision. */
  predicate FlagsAgree(x: Submission) {
    (x.canEdit ==> x.status == DRAFT) && (x.canResubmit ==> x.status == REVISION)
  }

  /** Withdraw keeps the flags in agreement with the status. */
  lemma WithdrawKeepsFlagsAgreeing(items: seq<Submission>, id: string, now: int)
    requires forall x | x in items :: FlagsAgree(x)
    ensures forall x | x in WithdrawAll(items, id, now) :: FlagsAgree(x)
  {
    var r := WithdrawAll(items, id, now);
    forall x | x in r ensures FlagsAgree(x) {
      var i :| 0 <= i < |r| && r[i] == x;
      assert items[i] in items;
    }
  }

  /* ---------- navigation ---------- */

  function ViewRoute(id: string): string {
    "/dashboard/author/submissions/" + id
  }

  function EditRoute(id: string): string {
    ViewRoute(id) + "?mode=edit"
  }

  /** Different submissions have different detail pages; the editor opens the same page in edit mode. */
  lemma RoutesSpec(id1: string, id2: string)
    ensures ViewRoute(id1) == ViewRoute(id2) ==> id1 == id2
    ensures EditRoute(id1)[..|ViewRoute(id1)|] == ViewRoute(id1)
  {
    var p := "/dashboard/author/submissions/";
    if ViewRoute(id1) == ViewRoute(id2) {
      assert id1 == ViewRoute(id1)[|p|..] == ViewRoute(id2)[|p|..] == id2;
    }
  }

  /* ---------- storage and the page state ---------- */

  /** What `JSON.parse` makes of the stored text: a list of records, or a parse failure (empty text included). */
  datatype Blob = Records(records: seq<Submission>) | Unparsable

  function Seed(): seq<Submission> {
    [ Submission("sub-101", "ev-1", "Public Health Conference 2026", CFP_OPEN,
        "Predictors of Vaccine Hesitancy in Urban Communities", ORAL,
        Some(1764929400000), 1764929400000, UNDER_REVIEW, false, false,
        Some(PublicHealth), Some(["vaccination", "survey", "behavior"])),
      Submission("sub-102", "ev-2", "Cardiology Research Day", REVIEW,
        "ECG Signal Classification Using Lightweight Transformers", POSTER,
        Some(1764340800000), 1765358100000, REVISION, false, true,
        Some(Cardiology), Some(["ECG", "transformers", "classification"])),
      Submission("sub-103", "ev-3", "AI & Health Symposium", PUBLISHED,
        "Bias Auditing in Clinical NLP Pipelines", ORAL,
        Some(1760947200000), 1762100520000, ACCEPTED, false, false,
        Some(AI), Some(["NLP", "bias", "clinical"])),
      Submission("sub-104", "ev-1", "Public Health Conference 2026", CFP_OPEN,
        "Draft: Community Health Workers Data Collection Protocol", DISPLAY,
        None, 1766059200000, DRAFT, true, false,
        Some(PublicHealth), Some(["protocol", "fieldwork"])) ]
  }

  /** The seed's flags agree with its statuses, and it has one record of each of four statuses. */
  lemma SeedSpec()
    ensures forall x | x in Seed() :: FlagsAgree(x)
    ensures CountersOf(Seed()) == Counters(4, 1, 1, 1, 1)
  {
    CountInSeed(AllStatuses - {WITHDRAWN});
    CountInSeed({ACCEPTED});
    CountInSeed({UNDER_REVIEW, SUBMITTED});
    CountInSeed({REVISION});
    CountInSeed({DRAFT});
  }

  lemma CountInSeed(st: set<SubmissionStatus>)
    ensures CountIn(Seed(), st) ==
      (if UNDER_REVIEW in st then 1 else 0) + (if REVISION in st then 1 else 0)
      + (if ACCEPTED in st then 1 else 0) + (if DRAFT in st then 1 else 0)
  {
    var s := Seed();
    assert s[1..][1..][1..][1..] == [];
    assert CountIn(s[1..][1..][1..], st) == if DRAFT in st then 1 else 0;
    assert CountIn(s[1..][1..], st) == (if ACCEPTED in st then 1 else 0) + (if DRAFT in st then 1 else 0);
  }

  /** The records the page starts from: the stored list when it parses, the seed otherwise. */
  function Loaded(storage: map<string, Blob>): seq<Submission> {
    if StorageKey in storage && storage[StorageKey].Records? then storage[StorageKey].records
    else Seed()
  }

  class SubmissionTracker {
    var items: seq<Submission>
    var ready: bool
    var storage: map<string, Blob>

    /** Once loaded, the stored list is always the current one. */
    ghost predicate Mirrored()
      reads this
    {
      ready ==> StorageKey in storage && storage[StorageKey] == Records(items)
    }

    constructor (storage0: map<string, Blob>)
      ensures items == [] && !ready && storage == storage0
      ensures Mirrored()
    {
      items, ready, storage := [], false, storage0;
    }

    /** The persist effect: after loading, writes the list back under its key. */
    method Persist()
      modifies this`storage
      ensures storage == if ready then old(storage)[StorageKey := Records(items)] else old(storage)
      ensures Mirrored()
    {
      if ready {
        storage := storage[StorageKey := Records(items)];
      }
    }

    /**
     * The load effect on mount, followed by the persist run it triggers:
     * a stored list that parses is used as is and the store is left as it
     * was; otherwise the seed is used and written back.
     */
    method Load()
      modifies this
      ensures ready && Mirrored()
      ensures items == Loaded(old(storage))
      ensures storage == old(storage)[StorageKey := Records(items)]
      ensures StorageKey in old(storage) && old(storage)[StorageKey].Records? ==> storage == old(storage)
    {
      if StorageKey in storage && storage[StorageKey].Records? {
        items := storage[StorageKey].records;
        ready := true;
      } else {
        var seeded := Seed();
        items := seeded;
        storage := storage[StorageKey := Records(seeded)];
        ready := true;
      }
      Persist();
    }

    /**
     * `withdraw(id)`: nothing happens when no record has the id or the user
     * declines the confirmation; otherwise every record with that id is
     * withdrawn at `now`, and the persist effect writes the list back.
     */
    method Withdraw(id: string, confirmed: bool, now: int)
      requires Mirrored()
      modifies this`items, this`storage
      ensures Mirrored()
      ensures !HasId(old(items), id) || !confirmed ==> items == old(items) && storage == old(storage)
      ensures HasId(old(items), id) && confirmed ==> items == WithdrawAll(old(items), id, now)
      ensures storage == if ready && HasId(old(items), id) && confirmed
        then old(storage)[StorageKey := Records(items)] else old(storage)
    {
      var found := exists i | 0 <= i < |items| :: items[i].id == id;
      if !found {
        return;
      }
      if !confirmed {
        return;
      }
      items := WithdrawAll(items, id, now);
      Persist();
    }
  }
}
