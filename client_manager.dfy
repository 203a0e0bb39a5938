/**
 * The client panel of src/components/admin/ClientManager.tsx: a client list
 * searchable by name, with add, edit and delete.
 */
module ClientManager {
  import opened Store
  import opened Schema

  /** The searchable field: the client name contains the query. */
  function NameFilter(q: string): Client -> bool {
    (c: Client) => Matches(q, c.name)
  }

  /** The list query has no ORDER BY. */
  function NoOrder(c: Client): int {
    0
  }

  /** The fields the add and edit forms submit. */
  datatype ClientForm = ClientForm(name: string, email: string, phone: string, address: string)

  /** The row `handleAddClient` inserts: the form under `client_<now>`, created now. */
  function NewClientRow(form: ClientForm, now: Timestamp): (c: Client)
    ensures c.id == MintId("client_", now) && c.createdAt == now
    ensures c.name == form.name && c.email == form.email && c.phone == form.phone && c.address == form.address
  {
    Client(MintId("client_", now), form.name, form.email, form.phone, form.address, now)
  }

  /** `UPDATE clients SET name, email, phone, address`. */
  function ApplyEdit(form: ClientForm): Client -> Client {
    (c: Client) => c.(name := form.name, email := form.email, phone := form.phone, address := form.address)
  }

  /** An edit rewrites exactly name, email, phone and address: the id and creation time stay. */
  lemma EditKeepsIdentity(form: ClientForm, c: Client)
    ensures ApplyEdit(form)(c) == NewClientRow(form, c.createdAt).(id := c.id)
  {
  }

  /** What a listing on this panel promises: every listed client matches, and every matching client is listed. */
  lemma ListedClientsMatch(t: map<string, Client>, q: string, rows: seq<Client>)
    requires Listing(t, NameFilter(q), NoOrder, rows)
    ensures forall i :: 0 <= i < |rows| ==> rows[i] in t.Values && (q != "" ==> Contains(rows[i].name, q))
    ensures forall k :: k in t && (q == "" || Contains(t[k].name, q)) ==> t[k] in rows
  {
    ListingRows(t, NameFilter(q), NoOrder, rows);
  }

  /** A client added under a fresh id appears in the next listing whose search its name matches. */
  lemma AddedClientIsListed(t: map<string, Client>, form: ClientForm, now: Timestamp, q: string, rows: seq<Client>)
    requires MintId("client_", now) !in t
    requires Listing(Insert(t, MintId("client_", now), NewClientRow(form, now)), NameFilter(q), NoOrder, rows)
    requires Matches(q, form.name)
    ensures NewClientRow(form, now) in rows
  {
    var t' := Insert(t, MintId("client_", now), NewClientRow(form, now));
    ListingRows(t', NameFilter(q), NoOrder, rows);
    assert t'[MintId("client_", now)] == NewClientRow(form, now);
  }

  class ClientManager {
    const db: Database
    var clients: seq<Client>
    var searchQuery: string
    var isAddModalOpen: bool
    var editingClient: Option<Client>
    var error: Option<string>

    constructor (db: Database)
      ensures this.db == db && clients == [] && searchQuery == "" && !isAddModalOpen
      ensures editingClient == None && error == None
    {
      this.db := db;
      clients := [];
      searchQuery := "";
      isAddModalOpen := false;
      editingClient := None;
      error := None;
    }

    /** Lists the clients whose name matches the search. A failure records the load error. */
    method LoadClients()
      modifies this
      ensures db.available ==> Listing(db.clients, NameFilter(searchQuery), NoOrder, clients) && error == old(error)
      ensures !db.available ==> clients == old(clients) && error == Some("Failed to load clients")
      ensures searchQuery == old(searchQuery) && isAddModalOpen == old(isAddModalOpen) && editingClient == old(editingClient)
    {
      if db.available {
        var ids;
        ids, clients := Select(db.clients, NameFilter(searchQuery), NoOrder);
      } else {
        error := Some("Failed to load clients");
      }
    }

    /** Typing in the search box reloads the list for the new query. */
    method SetSearchQuery(q: string)
      modifies this
      ensures searchQuery == q
      ensures db.available ==> Listing(db.clients, NameFilter(q), NoOrder, clients) && error == old(error)
      ensures !db.available ==> clients == old(clients) && error == Some("Failed to load clients")
      ensures isAddModalOpen == old(isAddModalOpen) && editingClient == old(editingClient)
    {
      searchQuery := q;
      LoadClients();
    }

    /** Inserts exactly one client under `client_<now>`, closes the form and reloads. A failure records the add error. */
    method HandleAddClient(form: ClientForm, now: Timestamp)
      modifies this, db`clients
      ensures db.available ==> db.clients == Insert(old(db.clients), MintId("client_", now), NewClientRow(form, now))
      ensures db.available ==> !isAddModalOpen && error == old(error)
      ensures db.available ==> Listing(db.clients, NameFilter(searchQuery), NoOrder, clients)
      ensures !db.available ==> db.clients == old(db.clients) && clients == old(clients)
      ensures !db.available ==> isAddModalOpen == old(isAddModalOpen) && error == Some("Failed to add client")
      ensures searchQuery == old(searchQuery) && editingClient == old(editingClient)
    {
      if db.available {
        db.clients := Insert(db.clients, MintId("client_", now), NewClientRow(form, now));
        isAddModalOpen := false;
        LoadClients();
      } else {
        error := Some("Failed to add client");
      }
    }

    /**
     * Rewrites name, email, phone and address of row `id` (the id the edit
     * form keeps from the client it was opened on), closes the form and
     * reloads. A failure records the update error.
     */
    method HandleEditClient(id: string, form: ClientForm)
      modifies this, db`clients
      ensures db.available ==> db.clients == UpdateRow(old(db.clients), id, ApplyEdit(form))
      ensures db.available ==> editingClient == None && error == old(error)
      ensures db.available ==> Listing(db.clients, NameFilter(searchQuery), NoOrder, clients)
      ensures !db.available ==> db.clients == old(db.clients) && clients == old(clients)
      ensures !db.available ==> editingClient == old(editingClient) && error == Some("Failed to update client")
      ensures searchQuery == old(searchQuery) && isAddModalOpen == old(isAddModalOpen)
    {
      if db.available {
        db.clients := UpdateRow(db.clients, id, ApplyEdit(form));
        editingClient := None;
        LoadClients();
      } else {
        error := Some("Failed to update client");
      }
    }

    /** Deletes row `id`, and only it, then reloads. A failure records the delete error. */
    method HandleDeleteClient(id: string)
      modifies this, db`clients
      ensures db.available ==> db.clients == DeleteRow(old(db.clients), id) && error == old(error)
      ensures db.available ==> Listing(db.clients, NameFilter(searchQuery), NoOrder, clients)
      ensures !db.available ==> db.clients == old(db.clients) && clients == old(clients)
      ensures !db.available ==> error == Some("Failed to delete client")
      ensures searchQuery == old(searchQuery) && isAddModalOpen == old(isAddModalOpen) && editingClient == old(editingClient)
    {
      if db.available {
        db.clients := DeleteRow(db.clients, id);
        LoadClients();
      } else {
        error := Some("Failed to delete client");
      }
    }

    /** Once an error is recorded the panel shows only the error. */
    function Screen(): (v: View)
      reads this
      ensures v.ErrorOnly? <==> error.Some?
    {
      ViewOf(error)
    }
  }
}
