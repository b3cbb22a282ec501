/** The customer-support view (src/components/CustomerSupport.tsx): the
    filtered ticket list, the colour helpers, the Take Action button, the
    console commands and the ticket dialog, whose Close button hides the
    dialog but keeps the ticket selected. */
module Support {
  import opened Optional
  import opened JsText
  import opened Collections
  import opened Display
  import opened Notices
  import opened ViewState

  datatype Ticket = Ticket(
    id: string,
    subject: string,
    customerName: string,
    status: string,
    priority: string,
    category: string)

  /** Subject, customer name or id contains the search, ignoring case. */
  predicate SearchMatches(t: Ticket, search: string) {
    IncludesIgnoringCase(t.subject, search)
    || IncludesIgnoringCase(t.customerName, search)
    || IncludesIgnoringCase(t.id, search)
  }

  /** The `filteredTickets` predicate. */
  predicate TicketMatches(t: Ticket, search: string, statusFilter: string, priorityFilter: string) {
    SearchMatches(t, search)
    && MatchesFilter(statusFilter, t.status)
    && MatchesFilter(priorityFilter, t.priority)
  }

  function FilteredTickets(tickets: seq<Ticket>, search: string, statusFilter: string, priorityFilter: string): (r: seq<Ticket>)
    ensures IsSubsequence(r, tickets)
    ensures forall t :: t in r <==> t in tickets && TicketMatches(t, search, statusFilter, priorityFilter)
  {
    FilterIsSubsequence(tickets, (t: Ticket) => TicketMatches(t, search, statusFilter, priorityFilter));
    Filter(tickets, (t: Ticket) => TicketMatches(t, search, statusFilter, priorityFilter))
  }

  lemma NoCriteriaShowsAllTickets(tickets: seq<Ticket>)
    ensures FilteredTickets(tickets, "", "all", "all") == tickets
  {
    forall t | t in tickets ensures TicketMatches(t, "", "all", "all") {
      IncludesEmpty(ToLower(t.subject));
    }
    FilterKeepsAll(tickets, (t: Ticket) => TicketMatches(t, "", "all", "all"));
  }

  lemma FilteredTicketsIdempotent(tickets: seq<Ticket>, search: string, statusFilter: string, priorityFilter: string)
    ensures var once := FilteredTickets(tickets, search, statusFilter, priorityFilter);
            FilteredTickets(once, search, statusFilter, priorityFilter) == once
  {
    FilterIdempotent(tickets, (t: Ticket) => TicketMatches(t, search, statusFilter, priorityFilter));
  }

  /** The two dropdowns commute: filtering by status and then by priority
      gives the same list, in the same order, as the combined filter. */
  lemma StatusThenPriority(tickets: seq<Ticket>, search: string, status: string, priority: string)
    ensures FilteredTickets(tickets, search, status, priority)
            == Filter(FilteredTickets(tickets, search, status, "all"), (t: Ticket) => MatchesFilter(priority, t.priority))
  {
    FilterConjunction(tickets, (t: Ticket) => TicketMatches(t, search, status, "all"),
                      (t: Ticket) => MatchesFilter(priority, t.priority),
                      (t: Ticket) => TicketMatches(t, search, status, priority));
  }

  /** `getStatusColor`. */
  function StatusTone(status: string): (c: Tone)
    ensures c == Blue <==> status == "open"
    ensures c == Yellow <==> status == "in_progress"
    ensures c == Green <==> status == "resolved"
    ensures c == Red <==> status == "escalated"
    ensures c == Gray <==> status !in {"open", "in_progress", "resolved", "escalated"}
  {
    match status
    case "open" => Blue
    case "in_progress" => Yellow
    case "resolved" => Green
    case "closed" => Gray
    case "escalated" => Red
    case _ => Gray
  }

  /** `getPriorityColor`. */
  function PriorityTone(priority: string): (c: Tone)
    ensures c == Red <==> priority == "high"
    ensures c == Yellow <==> priority == "medium"
    ensures c == Green <==> priority == "low"
    ensures c == Gray <==> priority !in {"high", "medium", "low"}
  {
    match priority
    case "high" => Red
    case "medium" => Yellow
    case "low" => Green
    case _ => Gray
  }

  /** `getCategoryColor`. */
  function CategoryTone(category: string): (c: Tone)
    ensures c == Purple <==> category == "technical"
    ensures c == Orange <==> category == "billing"
    ensures c == Blue <==> category == "feature_request"
    ensures c == Gray <==> category !in {"technical", "billing", "feature_request"}
  {
    match category
    case "technical" => Purple
    case "billing" => Orange
    case "feature_request" => Blue
    case "general" => Gray
    case _ => Gray
  }

  /** The commands of the view; each only writes a console line. */
  datatype Command = Assign(agent: string) | UpdateStatus(newStatus: string) | Escalate

  /** `assignTicket`, `updateStatus`, `escalateTicket`. */
  function CommandLog(command: Command, ticketId: string): (n: Notice)
    ensures n.ConsoleLog?
  {
    ConsoleLog(
      match command
      case Assign(agent) => "Assigning ticket " + ticketId + " to " + agent
      case UpdateStatus(s) => "Updating ticket " + ticketId + " status to " + s
      case Escalate => "Escalating ticket " + ticketId)
  }

  /** The three kinds of command produce distinguishable console lines. */
  lemma CommandLogKinds(c1: Command, id1: string, c2: Command, id2: string)
    requires CommandLog(c1, id1) == CommandLog(c2, id2)
    ensures c1.Assign? <==> c2.Assign?
    ensures c1.UpdateStatus? <==> c2.UpdateStatus?
    ensures c1.Escalate? ==> id1 == id2
  {
    var t1, t2 := CommandLog(c1, id1).text, CommandLog(c2, id2).text;
    assert t1[0] == t2[0];
    if c1.Escalate? {
      PrefixCancel("Escalating ticket ", id1, id2);
    }
  }

  /** The 'Take Action' button of a ticket card: shown only for an open
      ticket, and it asks to move the ticket to 'in_progress'. */
  function TakeAction(t: Ticket): (b: Option<Command>)
    ensures b.Some? <==> t.status == "open"
    ensures b.Some? ==> b.value == UpdateStatus("in_progress")
  {
    if t.status == "open" then Some(UpdateStatus("in_progress")) else None
  }

  /** The button only logs: its line names the ticket and the new status. */
  lemma TakeActionLog(t: Ticket)
    requires t.status == "open"
    ensures CommandLog(TakeAction(t).value, t.id)
            == ConsoleLog("Updating ticket " + t.id + " status to in_progress")
  {
  }

  /** View Details and Reply both select the ticket and open the dialog. */
  method OpenTicket(view: MasterDetail<Ticket>, t: Ticket)
    requires view.Valid() && t in view.records
    modifies view
    ensures view.Valid() && view.selected == Some(t) && view.isDetailsOpen
  {
    view.Select(t);
  }

  /** The dialog's Close button: the dialog is hidden and the ticket stays
      selected, so reopening the dialog shows the same ticket. */
  method CloseTicket(view: MasterDetail<Ticket>)
    requires view.Valid()
    modifies view
    ensures view.Valid() && !view.isDetailsOpen && view.selected == old(view.selected)
  {
    view.SetDetailsOpen(false);
  }

  /** Opening one ticket and then another selects the later one; closing
      the dialog and opening it again shows that same ticket. */
  method ReopenAfterClose(view: MasterDetail<Ticket>, first: Ticket, second: Ticket)
    requires view.Valid() && first in view.records && second in view.records
    modifies view
    ensures view.selected == Some(second) && view.DetailsShown()
  {
    OpenTicket(view, first);
    OpenTicket(view, second);
    CloseTicket(view);
    view.SetDetailsOpen(true);
  }
}
