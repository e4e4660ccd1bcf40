/**
 * The super-admin's event list (dashboard/admin/events/page.tsx): the
 * status badge and the Suspend action, which marks one event SUSPENDED.
 */
module AdminEvents {

  datatype EventStatus = DRAFT | CFP_OPEN | REVIEW | ONGOING | CLOSED | SUSPENDED

  datatype Kind = Neutral | Info | Success | Warning | Danger

  datatype StatusBadge = StatusBadge(caption: string, kind: Kind)

  /** `statusMeta(status)`: every status has a badge; DRAFT takes the default branch. */
  function StatusMeta(status: EventStatus): (b: StatusBadge)
    ensures status == DRAFT ==> b == StatusBadge("Draft", Neutral)
    ensures b.kind == Danger <==> status == SUSPENDED
  {
    match status
    case CFP_OPEN => StatusBadge("CFP Open", Info)
    case ONGOING => StatusBadge("Ongoing", Success)
    case REVIEW => StatusBadge("Under Review", Warning)
    case CLOSED => StatusBadge("Closed", Neutral)
    case SUSPENDED => StatusBadge("Suspended", Danger)
    case _ => StatusBadge("Draft", Neutral)
  }

  /** Different statuses show different captions. */
  lemma StatusCaptionsDistinct(s: EventStatus, t: EventStatus)
    ensures StatusMeta(s).caption == StatusMeta(t).caption <==> s == t
  {
  }

  datatype AdminEvent = AdminEvent(
    id: string,
    title: string,
    organizer: string,
    startDate: string,
    endDate: string,
    status: EventStatus,
    participants: int)

  /** `prev.map(e => e.id === id ? { ...e, status: "SUSPENDED" } : e)`. */
  function Suspended(events: seq<AdminEvent>, id: string): (r: seq<AdminEvent>)
    ensures |r| == |events|
    ensures forall i | 0 <= i < |events| ::
      r[i] == if events[i].id == id then events[i].(status := SUSPENDED) else events[i]
  {
    seq(|events|, i requires 0 <= i < |events| =>
      if events[i].id == id then events[i].(status := SUSPENDED) else events[i])
  }

  /** The matching events keep every field but the status, which becomes SUSPENDED; ids never change. */
  lemma SuspendedKeepsIds(events: seq<AdminEvent>, id: string)
    ensures forall i | 0 <= i < |events| :: Suspended(events, id)[i].id == events[i].id
    ensures forall i | 0 <= i < |events| && events[i].id == id ::
      Suspended(events, id)[i].status == SUSPENDED
      && Suspended(events, id)[i].(status := events[i].status) == events[i]
  {
  }

  /** Suspending an id no event has changes nothing. */
  lemma SuspendAbsent(events: seq<AdminEvent>, id: string)
    requires forall i | 0 <= i < |events| :: events[i].id != id
    ensures Suspended(events, id) == events
  {
  }

  /** Suspending twice is suspending once. */
  lemma SuspendIdempotent(events: seq<AdminEvent>, id: string)
    ensures Suspended(Suspended(events, id), id) == Suspended(events, id)
  {
  }

  /** Suspending two ids gives the same list in either order. */
  lemma SuspendCommutes(events: seq<AdminEvent>, a: string, b: string)
    ensures Suspended(Suspended(events, a), b) == Suspended(Suspended(events, b), a)
  {
  }

  /** The Suspend button is shown for every event that is not already suspended. */
  predicate SuspendOffered(e: AdminEvent) {
    e.status != SUSPENDED
  }

  /** After a suspension no event with that id offers Suspend any more; the others offer it as before. */
  lemma SuspendWithdrawsOffer(events: seq<AdminEvent>, id: string)
    ensures forall i | 0 <= i < |events| ::
      SuspendOffered(Suspended(events, id)[i]) <==> events[i].id != id && SuspendOffered(events[i])
  {
  }

  const InitialEvents := [
    AdminEvent("e1", "Vaccination Drive Week", "University of Constantine", "2025-01-10", "2025-01-12", CFP_OPEN, 120),
    AdminEvent("e2", "Mental Health Awareness Seminar", "Health NGO Oran", "2025-02-05", "2025-02-05", ONGOING, 300),
    AdminEvent("e3", "Cardiology Research Day", "Algiers Medical School", "2025-03-01", "2025-03-02", REVIEW, 90)
  ]

  /** The page's `events` state. */
  class EventList {
    var events: seq<AdminEvent>

    /** The three mock events. */
    constructor ()
      ensures events == InitialEvents
    {
      events := InitialEvents;
    }

    /**
     * `suspendEvent(id)`, with the answer to its confirmation passed in: a
     * declined confirmation changes nothing; an accepted one suspends the
     * events with that id.
     */
    method SuspendEvent(id: string, confirmed: bool)
      modifies this
      ensures events == if confirmed then Suspended(old(events), id) else old(events)
    {
      if !confirmed {
        return;
      }
      events := Suspended(events, id);
    }
  }
}
