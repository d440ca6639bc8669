/** Support tickets: a guardian opens a ticket with a first message, both
    sides append replies, and the status moves between `abierto`,
    `respondido` and `cerrado`. */
module Tickets {
  import opened Wrappers
  import opened Text
  import opened Queries

  datatype TicketStatus = Abierto | Respondido | Cerrado

  /** The strings stored in `Ticket.status`. */
  function TicketStatusCode(s: TicketStatus): (code: string)
    ensures code in {"abierto", "respondido", "cerrado"}
  {
    match s
    case Abierto => "abierto"
    case Respondido => "respondido"
    case Cerrado => "cerrado"
  }

  /** Reading a stored `status` back: only the three choices are accepted. */
  function TicketStatusFromCode(code: string): (r: Option<TicketStatus>)
    ensures r.Some? <==> code in {"abierto", "respondido", "cerrado"}
    ensures r.Some? ==> TicketStatusCode(r.value) == code
  {
    if code == "abierto" then Some(Abierto)
    else if code == "respondido" then Some(Respondido)
    else if code == "cerrado" then Some(Cerrado)
    else None
  }

  lemma TicketStatusCodeRoundTrip(s: TicketStatus)
    ensures TicketStatusFromCode(TicketStatusCode(s)) == Some(s)
  {
  }

  lemma TicketStatusCodeInjective(s: TicketStatus, t: TicketStatus)
    requires TicketStatusCode(s) == TicketStatusCode(t)
    ensures s == t
  {
  }

  /** `Ticket.status` defaults to `abierto`. */
  const TicketStatusDefault: TicketStatus := Abierto

  datatype Ticket = Ticket(subject: string, guardian: nat, status: TicketStatus)

  /** A `TicketReply`: `user` is the guardian or an admin. */
  datatype Reply = Reply(ticket: nat, user: nat, message: string)

  /** A required `CharField` as Django cleans it (stripping on): the stripped
      value, refused when blank or longer than `maxLength`. */
  function CleanText(raw: string, maxLength: Option<nat>): (r: Option<string>)
    ensures r.Some? <==> !Blank(raw) && (maxLength.None? || |Strip(raw)| <= maxLength.value)
    ensures r.Some? ==> r.value != [] && !IsSpace(r.value[0]) && !IsSpace(r.value[|r.value| - 1])
    ensures r.Some? ==> r.value == Strip(raw)
  {
    var s := Strip(raw);
    if s == [] then None
    else if maxLength.Some? && |s| > maxLength.value then None
    else Some(s)
  }

  /** The posted fields of `TicketForm`. */
  datatype TicketForm = TicketForm(subject: string, message: string)

  /** `TicketForm.is_valid()` and its `cleaned_data`: the subject is at most
      200 characters (`Ticket.subject`), both fields are required. */
  function CleanTicketForm(f: TicketForm): (r: Option<TicketForm>)
    ensures r.Some? <==> !Blank(f.subject) && !Blank(f.message) && |Strip(f.subject)| <= 200
    ensures r.Some? ==> r.value == TicketForm(Strip(f.subject), Strip(f.message))
  {
    match (CleanText(f.subject, Some(200)), CleanText(f.message, None))
    case (Some(subject), Some(message)) => Some(TicketForm(subject, message))
    case _ => None
  }

  /** `ticket.replies.all()`: the replies of ticket `t`, oldest first. */
  function Thread(replies: seq<Reply>, t: nat): (r: seq<Reply>)
    ensures forall x :: x in r <==> x in replies && x.ticket == t
    ensures forall x :: multiset(r)[x] == if x.ticket == t then multiset(replies)[x] else 0
  {
    FilterMultiset(replies, (x: Reply) => x.ticket == t);
    Filter(replies, (x: Reply) => x.ticket == t)
  }

  /** Appending a reply extends its own ticket's thread by exactly that reply
      and leaves every other thread as it was. */
  lemma ReplyExtendsThread(replies: seq<Reply>, x: Reply, t: nat)
    ensures Thread(replies + [x], t) == if x.ticket == t then Thread(replies, t) + [x] else Thread(replies, t)
  {
    assert (replies + [x])[..|replies|] == replies;
  }

  /** The primary keys of `user`'s tickets, newest first (`ordering =
      ['-created_at']`, with primary keys in creation order). */
  function NewestFirst(tickets: seq<Ticket>, user: nat): (r: seq<nat>)
    ensures forall i :: i in r <==> 0 <= i < |tickets| && tickets[i].guardian == user
    ensures forall a :: 0 <= a < |r| ==> r[a] < |tickets|
    ensures forall a, b :: 0 <= a < b < |r| ==> r[a] > r[b]
    decreases |tickets|
  {
    if tickets == [] then []
    else
      var last := |tickets| - 1;
      (if tickets[last].guardian == user then [last] else []) + NewestFirst(tickets[..last], user)
  }

  /** `list_tickets`: a non-guardian is turned away; a guardian sees exactly
      their own tickets. */
  function ListTickets(tickets: seq<Ticket>, user: nat, isGuardian: bool): (r: Option<seq<nat>>)
    ensures r.None? <==> !isGuardian
    ensures r.Some? ==> forall i :: i in r.value <==> 0 <= i < |tickets| && tickets[i].guardian == user
  {
    if !isGuardian then None else Some(NewestFirst(tickets, user))
  }

  /** What a ticket view answers, rendering and redirect targets aside. */
  datatype Response =
    | Unauthorized
    | NotFound
    | FormShown
    | Opened(ticket: nat)
    | Replied(ticket: nat)
    | Closed(ticket: nat)
    | Unchanged

  /** The `tickets` tables. Primary keys are positions. */
  class Desk {
    var tickets: seq<Ticket>
    var replies: seq<Reply>

    /** Every reply belongs to an existing ticket. */
    ghost predicate Valid()
      reads this
    {
      forall k :: 0 <= k < |replies| ==> replies[k].ticket < |tickets|
    }

    constructor ()
      ensures Valid()
      ensures tickets == [] && replies == []
    {
      tickets, replies := [], [];
    }

    /** `ticket.save()` of a new ticket. */
    method AddTicket(t: Ticket) returns (pk: nat)
      requires Valid()
      modifies this
      ensures Valid()
      ensures pk == |old(tickets)| && tickets == old(tickets) + [t]
      ensures replies == old(replies)
    {
      pk := |tickets|;
      tickets := tickets + [t];
    }

    /** `TicketReply` saved on ticket `pk`. */
    method AddReply(pk: nat, user: nat, message: string)
      requires Valid() && pk < |tickets|
      modifies this
      ensures Valid()
      ensures replies == old(replies) + [Reply(pk, user, message)]
      ensures tickets == old(tickets)
    {
      replies := replies + [Reply(pk, user, message)];
    }

    /** `ticket.status = status; ticket.save()`. */
    method SetStatus(pk: nat, status: TicketStatus)
      requires Valid() && pk < |tickets|
      modifies this
      ensures Valid()
      ensures tickets == old(tickets)[pk := old(tickets)[pk].(status := status)]
      ensures replies == old(replies)
    {
      tickets := tickets[pk := tickets[pk].(status := status)];
    }
  }

  /** `create_ticket`: a guardian posting a valid form gets a new `abierto`
      ticket of their own and its first reply carrying the message; every
      other request leaves the tables alone. */
  method CreateTicket(desk: Desk, user: nat, isGuardian: bool, isPost: bool, form: TicketForm)
    returns (resp: Response)
    requires desk.Valid()
    modifies desk
    ensures desk.Valid()
    ensures !isGuardian ==> resp == Unauthorized
    ensures isGuardian && (!isPost || CleanTicketForm(form).None?) ==> resp == FormShown
    ensures resp.Opened? <==> isGuardian && isPost && CleanTicketForm(form).Some?
    ensures !resp.Opened? ==> desk.tickets == old(desk.tickets) && desk.replies == old(desk.replies)
    ensures resp.Opened? ==>
      var cleaned := CleanTicketForm(form).value;
      && resp.ticket == |old(desk.tickets)|
      && desk.tickets == old(desk.tickets) + [Ticket(cleaned.subject, user, Abierto)]
      && desk.replies == old(desk.replies) + [Reply(resp.ticket, user, cleaned.message)]
  {
    if !isGuardian {
      return Unauthorized;
    }
    if !isPost {
      return FormShown;
    }
    var cleaned := CleanTicketForm(form);
    if cleaned.None? {
      return FormShown;
    }
    var pk := desk.AddTicket(Ticket(cleaned.value.subject, user, Abierto));
    desk.AddReply(pk, user, cleaned.value.message);
    return Opened(pk);
  }

  /** `view_ticket`: only the owner finds the ticket; the owner posting a
      non-blank reply appends it and reopens the ticket from any status,
      `cerrado` included; a plain view changes nothing. */
  method ViewTicket(desk: Desk, user: nat, isGuardian: bool, pk: nat, isPost: bool, message: string)
    returns (resp: Response)
    requires desk.Valid()
    modifies desk
    ensures desk.Valid()
    ensures !isGuardian ==> resp == Unauthorized
    ensures isGuardian && (pk >= |old(desk.tickets)| || old(desk.tickets)[pk].guardian != user) ==> resp == NotFound
    ensures resp.Replied? <==>
      isGuardian && pk < |old(desk.tickets)| && old(desk.tickets)[pk].guardian == user && isPost && !Blank(message)
    ensures !resp.Replied? ==> desk.tickets == old(desk.tickets) && desk.replies == old(desk.replies)
    ensures resp.Replied? ==>
      && resp.ticket == pk
      && desk.replies == old(desk.replies) + [Reply(pk, user, Strip(message))]
      && desk.tickets == old(desk.tickets)[pk := old(desk.tickets)[pk].(status := Abierto)]
  {
    if !isGuardian {
      return Unauthorized;
    }
    if pk >= |desk.tickets| || desk.tickets[pk].guardian != user {
      return NotFound;
    }
    if isPost {
      var cleaned := CleanText(message, None);
      if cleaned.Some? {
        desk.AddReply(pk, user, cleaned.value);
        desk.SetStatus(pk, Abierto);
        return Replied(pk);
      }
    }
    return Unchanged;
  }
}
