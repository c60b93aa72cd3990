/**
 * One ticket drawn as a card: the task-or-bug icon, the status styling, and
 * which ticket fields are shown, each verbatim.
 */
module TicketCard {
  import opened Wrappers
  import opened Api
  import PriorityBadge

  /** A ticket is a task unless its category is exactly "Bug". */
  predicate IsTask(t: Ticket)
  {
    t.category != "Bug"
  }

  datatype Icon = CheckSquare | AlertTriangle

  /** The header icon: a check box for a task, a warning triangle otherwise. */
  function IconFor(t: Ticket): (icon: Icon)
    ensures icon == CheckSquare <==> IsTask(t)
    ensures icon == AlertTriangle <==> !IsTask(t)
  {
    if IsTask(t) then CheckSquare else AlertTriangle
  }

  /** The extra styles the status pill may receive. */
  datatype StatusStyle = Destructive | PrimaryStyle | GreenStyle

  /** The styles applied to the status pill. Each of the three is switched on
      by its own, independent equality test on the status text. */
  function StatusStyles(status: string): (styles: set<StatusStyle>)
    ensures Destructive in styles <==> status == "Open"
    ensures PrimaryStyle in styles <==> status == "In Progress"
    ensures GreenStyle in styles <==> status == "Resolved"
  {
    (if status == "Open" then {Destructive} else {})
    + (if status == "In Progress" then {PrimaryStyle} else {})
    + (if status == "Resolved" then {GreenStyle} else {})
  }

  /** At most one status style ever applies, and any status other than the
      three known ones gets none. */
  lemma AtMostOneStatusStyle(status: string)
    ensures |StatusStyles(status)| <= 1
    ensures status !in {"Open", "In Progress", "Resolved"} ==> StatusStyles(status) == {}
  {
  }

  /** What a card displays. */
  datatype Card = Card(
    icon: Icon,
    id: string,
    badge: string,
    title: string,
    status: string,
    statusStyles: set<StatusStyle>,
    team: string,
    category: string,
    sourceComplaint: string)

  /** Draws a ticket as a card. */
  function CardOf(t: Ticket): (c: Card)
  {
    Card(IconFor(t), t.id, PriorityBadge.Label(t.priority), t.title,
         t.status, StatusStyles(t.status), t.team, t.category, t.complaintId)
  }

  /** Reads the ticket back from what its card shows; fails only if the
      badge is not one of the four priority labels. */
  function TicketOf(c: Card): (r: Option<Ticket>)
    ensures r.Some? ==> r.value.id == c.id && r.value.complaintId == c.sourceComplaint
  {
    match PriorityBadge.PriorityOfLabel(c.badge)
    case None => None
    case Some(p) => Some(Ticket(c.id, c.title, p, c.category, c.team, c.status, c.sourceComplaint))
  }

  /** The card shows every field of its ticket verbatim (the priority through
      its badge label): the ticket can be read back from the card alone. */
  lemma CardShowsWholeTicket(t: Ticket)
    ensures TicketOf(CardOf(t)) == Some(t)
  {
  }

  /** Two different tickets never produce the same card. */
  lemma CardOfInjective(t: Ticket, u: Ticket)
    requires t != u
    ensures CardOf(t) != CardOf(u)
  {
  }
}
