/** The event-management page: the list of events with a case-insensitive
    search over title and description, a status badge and action per event,
    and deletion after confirmation. */
module EventManagement {
  import opened Records
  import opened Sequences
  import opened Strings

  // ---------------------------------------------------------------------
  // Search

  /** An event matches when its lower-cased title or description contains
      the lower-cased search term. */
  predicate EventMatches(term: string, e: Event)
  {
    Contains(Lower(e.title), Lower(term)) || Contains(Lower(e.description), Lower(term))
  }

  /** The events shown for a search term, in list order. */
  function FilteredEvents(events: seq<Event>, term: string): seq<Event>
  {
    Filter(events, (e: Event) => EventMatches(term, e))
  }

  /** The shown events are exactly the matching ones, in list order. */
  lemma FilteredEventsSpec(events: seq<Event>, term: string)
    ensures IsSubsequence(FilteredEvents(events, term), events)
    ensures forall e :: e in FilteredEvents(events, term) <==> e in events && EventMatches(term, e)
  {
    var p := (e: Event) => EventMatches(term, e);
    FilterIsSubsequence(events, p);
    forall e ensures e in Filter(events, p) <==> e in events && p(e) {
      FilterMembership(events, p, e);
    }
  }

  /** An empty search shows every event. */
  lemma EmptyTermShowsAll(events: seq<Event>)
    ensures FilteredEvents(events, "") == events
  {
    forall i | 0 <= i < |events| ensures EventMatches("", events[i]) {
      ContainsEmpty(Lower(events[i].title));
    }
    FilterKeepsAll(events, (e: Event) => EventMatches("", e));
  }

  /** Terms that differ only in letter case show the same events. */
  lemma SearchIgnoresCase(events: seq<Event>, t1: string, t2: string)
    requires Lower(t1) == Lower(t2)
    ensures FilteredEvents(events, t1) == FilteredEvents(events, t2)
  {
    FilterCongruent(events, (e: Event) => EventMatches(t1, e), (e: Event) => EventMatches(t2, e));
  }

  /** Refining the term (a term whose lower-cased form contains the old
      one's) can only hide events, never reveal new ones. */
  lemma RefinedTermNarrows(events: seq<Event>, t1: string, t2: string)
    requires Contains(Lower(t2), Lower(t1))
    ensures forall e :: e in FilteredEvents(events, t2) ==> e in FilteredEvents(events, t1)
  {
    FilteredEventsSpec(events, t1);
    FilteredEventsSpec(events, t2);
    forall e | EventMatches(t2, e) ensures EventMatches(t1, e) {
      if Contains(Lower(e.title), Lower(t2)) {
        ContainsTransitive(Lower(e.title), Lower(t2), Lower(t1));
      } else {
        ContainsTransitive(Lower(e.description), Lower(t2), Lower(t1));
      }
    }
  }

  // ---------------------------------------------------------------------
  // Status badge and action

  /** The badge label of a streaming status; an unknown status (such as the
      id of the media being played) is shown as it is. */
  function StatusText(status: string): string
  {
    match status
    case "active" => "Đang diễn ra"
    case "scheduled" => "Đã lên lịch"
    case "completed" => "Đã hoàn thành"
    case "draft" => "Nháp"
    case _ => status
  }

  /** The badge style of a streaming status. */
  function StatusColor(status: string): string
  {
    match status
    case "active" => "bg-vr-secondary text-vr-background"
    case "scheduled" => "bg-vr-primary text-primary-foreground"
    case "completed" => "bg-muted-foreground text-foreground"
    case "draft" => "bg-secondary text-secondary-foreground"
    case _ => "bg-secondary text-secondary-foreground"
  }

  /** The four known statuses have four different labels and every other
      status is its own label. */
  lemma StatusTextSpec(status: string)
    ensures status !in {"active", "scheduled", "completed", "draft"} ==> StatusText(status) == status
    ensures |{StatusText("active"), StatusText("scheduled"), StatusText("completed"), StatusText("draft")}| == 4
  {
  }

  /** A draft is styled like an unknown status; the other three known
      statuses each have a style of their own. */
  lemma StatusColorSpec(status: string)
    ensures status !in {"active", "scheduled", "completed"} ==> StatusColor(status) == StatusColor("draft")
    ensures status in {"active", "scheduled", "completed"} ==>
      forall other :: other != status ==> StatusColor(other) != StatusColor(status)
  {
  }

  /** The action button of an event row. */
  datatype Action = PauseAction | StartAction | NoAction

  /** A running event can be paused; a scheduled or draft one started; a
      completed one, or one with any other status, has no action. */
  function StatusAction(status: string): (a: Action)
    ensures a == PauseAction <==> status == "active"
    ensures a == StartAction <==> status == "scheduled" || status == "draft"
    ensures a == NoAction <==> status !in {"active", "scheduled", "draft"}
  {
    if status == "active" then PauseAction
    else if status == "scheduled" || status == "draft" then StartAction
    else NoAction
  }

  /** Every status with an action has a label of its own, so the badge never
      shows the raw status next to a button. */
  lemma ActionHasKnownLabel(status: string)
    requires StatusAction(status) != NoAction
    ensures StatusText(status) != status
  {
  }

  // ---------------------------------------------------------------------
  // Deletion

  /** The list after the event with id `id` is deleted. */
  function WithoutEvent(events: seq<Event>, id: string): seq<Event>
  {
    Filter(events, (e: Event) => e.id != id)
  }

  /** Deleting an event and then searching shows what the search showed,
      without that event: the two filters commute. */
  lemma {:induction false} DeleteCommutesWithSearch(events: seq<Event>, id: string, term: string)
    ensures FilteredEvents(WithoutEvent(events, id), term) == WithoutEvent(FilteredEvents(events, term), id)
  {
    var kept := (e: Event) => e.id != id;
    var matches := (e: Event) => EventMatches(term, e);
    var both := (e: Event) => e.id != id && EventMatches(term, e);
    FilterFilter(events, kept, matches, both);
    FilterFilter(events, matches, kept, both);
  }

  /** Deletion removes every event with that id and keeps all others with
      their multiplicity and order. */
  lemma WithoutEventSpec(events: seq<Event>, id: string)
    ensures IsSubsequence(WithoutEvent(events, id), events)
    ensures forall e :: e in WithoutEvent(events, id) ==> e.id != id
    ensures forall e: Event :: e.id != id ==> multiset(WithoutEvent(events, id))[e] == multiset(events)[e]
  {
    var p := (e: Event) => e.id != id;
    FilterIsSubsequence(events, p);
    forall e: Event | e.id != id ensures multiset(Filter(events, p))[e] == multiset(events)[e] {
      FilterMultiset(events, p, e);
    }
  }

  // ---------------------------------------------------------------------
  // The page

  class EventManagementPage {
    var searchTerm: string
    var events: seq<Event>
    var loading: bool
    var requests: seq<Request>

    /** What the list shows. */
    function Shown(): seq<Event>
      reads this
    {
      FilteredEvents(events, searchTerm)
    }

    constructor ()
      ensures searchTerm == "" && events == [] && loading && requests == []
    {
      searchTerm, events, loading, requests := "", [], true, [];
    }

    /** The mount effect. `response` is None when the request fails and
        Some(None) when it answers without data, which empties the list. */
    method Load(response: Option<Option<seq<Event>>>)
      modifies this`events, this`loading
      ensures !loading
      ensures events == match response
                        case None => old(events)
                        case Some(None) => []
                        case Some(Some(es)) => es
    {
      match response {
        case None =>
        case Some(None) =>
          events := [];
        case Some(Some(es)) =>
          events := es;
      }
      loading := false;
    }

    /** Typing into the search box. */
    method SetSearchTerm(term: string)
      modifies this`searchTerm
      ensures searchTerm == term
      ensures Shown() == FilteredEvents(events, term)
    {
      searchTerm := term;
    }

    /** `handleDelete`: nothing unless the user confirms; then the delete
        request is sent, and on success every event with that id leaves the
        list (the search result loses it too). */
    method HandleDelete(id: string, confirmed: bool, succeeded: bool)
      modifies this`requests, this`events
      ensures !confirmed ==> requests == old(requests) && events == old(events)
      ensures confirmed ==> requests == old(requests) + [DeleteEvent(id)]
      ensures events == if confirmed && succeeded then WithoutEvent(old(events), id) else old(events)
      ensures confirmed && succeeded ==> Shown() == WithoutEvent(FilteredEvents(old(events), searchTerm), id)
    {
      if !confirmed {
        return;
      }
      requests := requests + [DeleteEvent(id)];
      if succeeded {
        DeleteCommutesWithSearch(events, id, searchTerm);
        events := WithoutEvent(events, id);
      }
    }
  }
}
