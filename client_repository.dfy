/** The in-memory client store: a map from client id to client value. */
module ClientRepositories {
  import opened Wrappers
  import opened Ids
  import opened ClientErrors
  import opened Clients
  import opened MapFacts

  /** Every stored client is stored under its own id. */
  ghost predicate KeyedById(clients: map<ClientId, ClientState>)
  {
    KeyedBy(clients, (c: ClientState) => c.id)
  }

  class ClientRepository {
    var clients: map<ClientId, ClientState>

    ghost predicate Valid()
      reads this
    {
      KeyedById(clients)
    }

    constructor ()
      ensures Valid() && clients == map[]
    {
      clients := map[];
    }

    /** The client stored under `id`, or NotFound when there is none. */
    function GetClient(id: ClientId): (r: Result<ClientState, ClientError>)
      reads this
      ensures r.Ok? <==> id in clients
      ensures r.Ok? ==> r.value == clients[id]
      ensures r.Err? ==> r.error == NotFound(id)
    {
      if id in clients then Ok(clients[id]) else Err(NotFound(id))
    }

    /** Stores `client` under its id, inserting or overwriting; never fails. */
    method CreateClient(client: ClientState) returns (r: Result<ClientState, ClientError>)
      requires Valid()
      modifies this
      ensures Valid()
      ensures r == Ok(client)
      ensures clients == old(clients)[client.id := client]
      ensures GetClient(client.id) == Ok(client)
      ensures forall id :: id != client.id ==> GetClient(id) == old(GetClient(id))
    {
      clients := clients[client.id := client];
      r := Ok(client);
    }

    /** Same store effect as CreateClient: inserts or overwrites the entry at the client's id. */
    method UpdateClient(client: ClientState) returns (r: Result<ClientState, ClientError>)
      requires Valid()
      modifies this
      ensures Valid()
      ensures r == Ok(client)
      ensures clients == old(clients)[client.id := client]
      ensures GetClient(client.id) == Ok(client)
      ensures forall id :: id != client.id ==> GetClient(id) == old(GetClient(id))
    {
      clients := clients[client.id := client];
      r := Ok(client);
    }

    /** Every stored client, each once, in no particular order. */
    function GetAllClients(): (r: set<ClientState>)
      reads this
      ensures forall id :: id in clients ==> clients[id] in r
      ensures forall c :: c in r ==> exists id :: id in clients && clients[id] == c
    {
      clients.Values
    }

    /** In a valid store there are exactly as many clients listed as ids stored. */
    lemma AllClientsOnePerId()
      requires Valid()
      ensures |GetAllClients()| == |clients|
    {
      OneValuePerKey(clients, (c: ClientState) => c.id);
    }
  }
}
