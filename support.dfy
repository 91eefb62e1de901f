/**
 * The support page: enquiries from the API turned into tickets with defaults, the
 * three status counts, the reply box guard, and the load error text.
 */
module Support {
  import opened Wrappers
  import Js

  /** An enquiry as the API returns it; optional members may be missing. */
  datatype Enquiry = Enquiry(
    id: int, name: string, email: string, phone: Option<string>, subject: Option<string>,
    message: string, status: Option<string>, createdAt: string)

  datatype Ticket = Ticket(
    id: int, ticketId: string, customer: string, email: string, phone: string,
    subject: string, message: string, status: string, date: string, replies: int)

  const TicketPrefix := "ENQ-"

  /** One enquiry as a ticket; `formatDate` stands for `new Date(created_at).toLocaleString()`. */
  function ToTicket(e: Enquiry, formatDate: string -> string): (t: Ticket)
    ensures t.id == e.id && t.ticketId == TicketPrefix + Js.IntToString(e.id)
    ensures t.customer == e.name && t.email == e.email && t.message == e.message
    ensures t.phone != "" && (e.phone.Some? && e.phone.value != "" ==> t.phone == e.phone.value)
    ensures t.subject != "" && (e.subject.Some? && e.subject.value != "" ==> t.subject == e.subject.value)
    ensures t.status != "" && (e.status.Some? && e.status.value != "" ==> t.status == e.status.value)
    ensures (e.phone.None? || e.phone.value == "") ==> t.phone == "N/A"
    ensures (e.subject.None? || e.subject.value == "") ==> t.subject == "General Inquiry"
    ensures (e.status.None? || e.status.value == "") ==> t.status == "new"
    ensures t.date == formatDate(e.createdAt) && t.replies == 0
  {
    Ticket(e.id, TicketPrefix + Js.IntToString(e.id), e.name, e.email,
           Js.OrMissing(e.phone, "N/A"), Js.OrMissing(e.subject, "General Inquiry"),
           e.message, Js.OrMissing(e.status, "new"), formatDate(e.createdAt), 0)
  }

  /** `supportTickets`: one ticket per enquiry, in the same order. */
  function Tickets(es: seq<Enquiry>, formatDate: string -> string): (ts: seq<Ticket>)
    ensures |ts| == |es|
    ensures forall i :: 0 <= i < |es| ==> ts[i] == ToTicket(es[i], formatDate)
  {
    seq(|es|, i requires 0 <= i < |es| => ToTicket(es[i], formatDate))
  }

  /** The ticket number reads back as the enquiry id. */
  lemma TicketIdReadsBack(e: Enquiry, formatDate: string -> string)
    ensures var t := ToTicket(e, formatDate).ticketId;
            |t| > |TicketPrefix| && t[..|TicketPrefix|] == TicketPrefix
            && Js.ParseIntText.requires(t[|TicketPrefix|..]) && Js.ParseIntText(t[|TicketPrefix|..]) == e.id
  {
    Js.IntToStringRoundTrip(e.id);
    var t := ToTicket(e, formatDate).ticketId;
    assert t[|TicketPrefix|..] == Js.IntToString(e.id);
  }

  /** Enquiries with distinct ids give tickets with distinct ticket numbers. */
  lemma TicketIdsDistinct(e1: Enquiry, e2: Enquiry, formatDate: string -> string)
    requires e1.id != e2.id
    ensures ToTicket(e1, formatDate).ticketId != ToTicket(e2, formatDate).ticketId
  {
    var t1, t2 := ToTicket(e1, formatDate).ticketId, ToTicket(e2, formatDate).ticketId;
    if t1 == t2 {
      assert t1[|TicketPrefix|..] == Js.IntToString(e1.id);
      assert t2[|TicketPrefix|..] == Js.IntToString(e2.id);
      Js.IntToStringInjective(e1.id, e2.id);
    }
  }

  /** `tickets.filter(t => t.status === status).length`. */
  function CountStatus(ts: seq<Ticket>, status: string): (n: nat)
    ensures n <= |ts|
    decreases |ts|
  {
    if |ts| == 0 then 0 else (if ts[0].status == status then 1 else 0) + CountStatus(ts[1..], status)
  }

  /** Open, pending and resolved never add up to more than the number of tickets. */
  lemma {:induction false} CountsBounded(ts: seq<Ticket>)
    ensures CountStatus(ts, "new") + CountStatus(ts, "contacted") + CountStatus(ts, "resolved") <= |ts|
    decreases |ts|
  {
    if |ts| > 0 {
      CountsBounded(ts[1..]);
    }
  }

  /** An enquiry without a status is counted as open. */
  lemma {:induction false} MissingStatusIsOpen(es: seq<Enquiry>, formatDate: string -> string)
    requires forall i :: 0 <= i < |es| ==> es[i].status.None?
    ensures CountStatus(Tickets(es, formatDate), "new") == |es|
    decreases |es|
  {
    if |es| > 0 {
      MissingStatusIsOpen(es[1..], formatDate);
      assert Tickets(es, formatDate)[1..] == Tickets(es[1..], formatDate);
    }
  }

  /** The reply box and whether an alert was raised, after `handleSendReply`. */
  datatype ReplyOutcome = ReplyOutcome(reply: string, alert: Option<string>)

  /** `handleSendReply` for the selected ticket: only a reply with some non-white-space text is sent. */
  function SendReply(reply: string, selected: Ticket): (r: ReplyOutcome)
    ensures r.alert.Some? <==> !Js.AllWhiteSpace(reply)
    ensures r.alert.Some? ==> r.reply == "" && r.alert.value == "Reply sent to " + selected.customer
    ensures r.alert.None? ==> r.reply == reply
  {
    Js.TrimEmptyIff(reply);
    if Js.Trim(reply) != "" then ReplyOutcome("", Some("Reply sent to " + selected.customer))
    else ReplyOutcome(reply, None)
  }

  /** `err.message || 'Failed to load support tickets'`. */
  function LoadError(message: Option<string>): (r: string)
    ensures r != ""
    ensures r == "Failed to load support tickets" <==>
              (message.None? || message.value == "" || message.value == "Failed to load support tickets")
  {
    Js.OrMissing(message, "Failed to load support tickets")
  }
}
