/**
 * The registry of live clients of the Go back end
 * (internal/manager/client_manager.go), keyed by client ID. The mutex is left
 * out: each operation is one atomic step.
 */
module Manager {
  import opened Wrappers
  import opened GoWhatsapp

  class ClientManager {
    /** `clients`. */
    var clients: map<string, WhatsappClient>

    /** `NewClientManager`: no clients. */
    constructor ()
      ensures clients == map[]
    {
      clients := map[];
    }

    /** `Add`: registers `client` under `id`, replacing any client there; other IDs keep theirs. */
    method Add(id: string, client: WhatsappClient)
      modifies this
      ensures clients == old(clients)[id := client]
    {
      clients := clients[id := client];
    }

    /** `Get`: the client registered under `id`, or None when there is none. */
    method Get(id: string) returns (r: Option<WhatsappClient>)
      ensures r.Some? <==> id in clients
      ensures r.Some? ==> r.value == clients[id]
    {
      if id in clients {
        r := Some(clients[id]);
      } else {
        r := None;
      }
    }

    /** `Remove`: `id` is no longer registered; removing an absent ID changes nothing; other IDs keep theirs. */
    method Remove(id: string)
      modifies this
      ensures clients == old(clients) - {id}
      ensures id !in old(clients) ==> clients == old(clients)
    {
      clients := clients - {id};
    }
  }

  /**
   * Adding and then looking up finds the added client; removing makes the lookup
   * fail; both leave every other registration as it was.
   */
  method AddGetRemove(m: ClientManager, id: string, other: string, client: WhatsappClient)
    returns (found: Option<WhatsappClient>, afterRemove: Option<WhatsappClient>)
    requires other != id
    modifies m
    ensures found == Some(client) && afterRemove == None
    ensures (other in m.clients) == (other in old(m.clients))
    ensures other in m.clients ==> m.clients[other] == old(m.clients[other])
  {
    m.Add(id, client);
    found := m.Get(id);
    m.Remove(id);
    afterRemove := m.Get(id);
  }
}
