/** The ticket store: an in-memory map from ticket id to ticket
    (TicketRepository). */
module Tickets {
  import opened Common

  /** A parking session's ticket. The store only reads `id` and `active`;
      the other fields are what the fee calculator and the exit flow read. */
  datatype Ticket = Ticket(
    id: TicketId,
    vehicleType: VehicleType,
    slotId: SlotId,
    entryTime: Instant,
    active: bool)

  /** Every entry is stored under its own ticket's id. */
  ghost predicate KeyedById(m: map<TicketId, Ticket>) {
    forall k :: k in m ==> m[k].id == k
  }

  /** The stored tickets whose active flag is set. */
  ghost function ActiveTickets(m: map<TicketId, Ticket>): set<Ticket> {
    set k | k in m && m[k].active :: m[k]
  }

  /** The map after the ticket stored under `id`, if any, is deactivated. */
  function DeactivateIn(m: map<TicketId, Ticket>, id: TicketId): (r: map<TicketId, Ticket>)
    ensures r.Keys == m.Keys
    ensures id in m ==> r[id] == m[id].(active := false)
    ensures forall k :: k in m && k != id ==> r[k] == m[k]
  {
    if id in m then m[id := m[id].(active := false)] else m
  }

  /** Deactivating twice leaves the same store as deactivating once. */
  lemma DeactivateIdempotent(m: map<TicketId, Ticket>, id: TicketId)
    ensures DeactivateIn(DeactivateIn(m, id), id) == DeactivateIn(m, id)
  {
  }

  /** After deactivation the ticket is no longer listed as active, and the
      active list is otherwise what it was. */
  lemma DeactivateLeavesActiveList(m: map<TicketId, Ticket>, id: TicketId)
    requires KeyedById(m)
    ensures KeyedById(DeactivateIn(m, id))
    ensures forall t :: t in ActiveTickets(DeactivateIn(m, id)) ==> t.id != id
    ensures forall t: Ticket :: t.id != id ==> (t in ActiveTickets(DeactivateIn(m, id)) <==> t in ActiveTickets(m))
  {
  }

  class TicketRepository {
    var tickets: map<TicketId, Ticket>

    ghost predicate Valid()
      reads this
    {
      KeyedById(tickets)
    }

    constructor ()
      ensures Valid() && tickets == map[]
    {
      tickets := map[];
    }

    /** Stores `ticket` under its id, replacing any ticket stored there, and
        returns it. */
    method Save(ticket: Ticket) returns (r: Ticket)
      requires Valid()
      modifies this
      ensures Valid()
      ensures r == ticket
      ensures tickets == old(tickets)[ticket.id := ticket]
      ensures FindById(ticket.id) == Some(ticket)
      ensures tickets.Keys == old(tickets).Keys + {ticket.id}
      ensures forall k :: k in old(tickets) && k != ticket.id ==> tickets[k] == old(tickets)[k]
    {
      tickets := tickets[ticket.id := ticket];
      r := ticket;
    }

    /** The ticket stored under `id`, or nothing if none was saved there. */
    function FindById(id: TicketId): (r: Option<Ticket>)
      reads this
      ensures r.Some? <==> id in tickets
      ensures r.Some? ==> r.value == tickets[id]
      ensures Valid() && r.Some? ==> r.value.id == id
    {
      if id in tickets then Some(tickets[id]) else None
    }

    /** The stored tickets that are active, each once, in no particular
        order. */
    method FindActiveTickets() returns (r: seq<Ticket>)
      requires Valid()
      ensures forall t :: t in r <==> t in ActiveTickets(tickets)
      ensures forall i, j :: 0 <= i < j < |r| ==> r[i].id != r[j].id
    {
      r := [];
      var todo := tickets.Keys;
      while todo != {}
        invariant todo <= tickets.Keys
        invariant forall t :: t in r <==> t in ActiveTickets(tickets) && t.id !in todo
        invariant forall i :: 0 <= i < |r| ==> r[i].id !in todo
        invariant forall i, j :: 0 <= i < j < |r| ==> r[i].id != r[j].id
        decreases todo
      {
        var k :| k in todo;
        if tickets[k].active {
          r := r + [tickets[k]];
        }
        todo := todo - {k};
      }
    }

    /** Removes every ticket. */
    method Clear()
      modifies this
      ensures Valid()
      ensures tickets == map[]
      ensures forall id :: FindById(id) == None
    {
      tickets := map[];
    }

    /** Clears the active flag of the ticket stored under `id`; does nothing
        when no ticket is stored there. */
    method DeactivateTicket(id: TicketId)
      requires Valid()
      modifies this
      ensures Valid()
      ensures tickets == DeactivateIn(old(tickets), id)
      ensures tickets.Keys == old(tickets).Keys
      ensures id in tickets ==> !tickets[id].active
      ensures id !in old(tickets) ==> tickets == old(tickets)
      ensures forall t :: t in ActiveTickets(tickets) ==> t.id != id
      ensures forall t: Ticket :: t.id != id ==> (t in ActiveTickets(tickets) <==> t in ActiveTickets(old(tickets)))
    {
      DeactivateLeavesActiveList(tickets, id);
      tickets := DeactivateIn(tickets, id);
    }
  }
}
