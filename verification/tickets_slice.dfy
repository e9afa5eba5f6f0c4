/**
 * The support-ticket slice of the store (src/store/slices/ticketsSlice.ts).
 */
module TicketsSlice {
  import opened Wrappers
  import opened Types
  import Lists

  /** The `t.id === id` test `updateTicket.fulfilled` searches with. */
  function TicketHasId(id: string): Ticket -> bool {
    (t: Ticket) => t.id == id
  }

  class TicketsState {
    var tickets: seq<Ticket>
    var isLoading: bool
    var error: Option<string>

    /** `initialState`: no tickets, idle, no error. */
    constructor ()
      ensures tickets == [] && !isLoading && error == None
    {
      tickets := [];
      isLoading := false;
      error := None;
    }

    /** `clearError`: forgets the error and nothing else. */
    method ClearError()
      modifies this
      ensures error == None
      ensures tickets == old(tickets) && isLoading == old(isLoading)
    {
      error := None;
    }

    /** `fetchTickets.pending`. */
    method FetchTicketsPending()
      modifies this
      ensures isLoading
      ensures tickets == old(tickets) && error == old(error)
    {
      isLoading := true;
    }

    /**
     * `fetchTickets.fulfilled`: stops loading; on success the list becomes
     * the returned one, or empty when none came back.
     */
    method FetchTicketsFulfilled(response: ApiResponse<seq<Ticket>>)
      modifies this
      ensures !isLoading
      ensures response.success ==> tickets == response.data.GetOr([])
      ensures !response.success ==> tickets == old(tickets)
      ensures error == old(error)
    {
      isLoading := false;
      if response.success {
        tickets := response.data.GetOr([]);
      }
    }

    /** `fetchTickets.rejected`: stops loading and records a non-empty error message. */
    method FetchTicketsRejected(message: Option<string>)
      modifies this
      ensures !isLoading
      ensures error == Some(OrElse(message, "Failed to fetch tickets")) && error.value != ""
      ensures tickets == old(tickets)
    {
      isLoading := false;
      error := Some(OrElse(message, "Failed to fetch tickets"));
    }

    /**
     * `createTicket.fulfilled`: a successful response carrying a ticket puts
     * it at the head of the list; any other response changes nothing.
     */
    method CreateTicketFulfilled(response: ApiResponse<Ticket>)
      modifies this
      ensures response.success && response.data.Some? ==> tickets == [response.data.value] + old(tickets)
      ensures !(response.success && response.data.Some?) ==> tickets == old(tickets)
      ensures isLoading == old(isLoading) && error == old(error)
    {
      if response.success && response.data.Some? {
        tickets := [response.data.value] + tickets;
      }
    }

    /**
     * `updateTicket.fulfilled`: a successful response carrying a ticket
     * replaces the first ticket with its id (the length is kept; no match,
     * no change); any other response changes nothing.
     */
    method UpdateTicketFulfilled(response: ApiResponse<Ticket>)
      modifies this
      ensures response.success && response.data.Some? ==>
                tickets == Lists.ReplaceFirst(old(tickets), TicketHasId(response.data.value.id), response.data.value)
      ensures !(response.success && response.data.Some?) ==> tickets == old(tickets)
      ensures |tickets| == |old(tickets)|
      ensures isLoading == old(isLoading) && error == old(error)
    {
      if response.success && response.data.Some? {
        var updated := response.data.value;
        var index := Lists.FindIndex(tickets, TicketHasId(updated.id));
        if index.Some? {
          tickets := tickets[index.value := updated];
        }
      }
    }
  }
}
