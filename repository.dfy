/** The transactional store behind the repositories: committed rows, and transactions
    whose writes stay private until they commit. Database errors are not computed here;
    each repository call takes a `fault` flag saying whether the database reported one. */
module Repository {
  import opened Wrappers
  import opened Entity

  /** Every row is stored under its own id. */
  ghost predicate Keyed(contacts: map<string, Contact>, addresses: map<string, Address>)
  {
    && (forall id :: id in contacts ==> contacts[id].id == id)
    && (forall id :: id in addresses ==> addresses[id].id == id)
  }

  /** The scoped contact query: the row with this id, provided this user owns it. */
  function FindByIdAndUserId(contacts: map<string, Contact>, id: string, userId: string): (found: Option<Contact>)
    ensures found.Some? ==> id in contacts && found.value == contacts[id] && found.value.userId == userId
    ensures found.None? ==> id !in contacts || contacts[id].userId != userId
  {
    if id in contacts && contacts[id].userId == userId then Some(contacts[id]) else None
  }

  /** The scoped address query: the row with this id, provided it belongs to this contact. */
  function FindByIdAndContactId(addresses: map<string, Address>, id: string, contactId: string): (found: Option<Address>)
    ensures found.Some? ==> id in addresses && found.value == addresses[id] && found.value.contactId == contactId
    ensures found.None? ==> id !in addresses || addresses[id].contactId != contactId
  {
    if id in addresses && addresses[id].contactId == contactId then Some(addresses[id]) else None
  }

  /** The committed rows. */
  class Store {
    var contacts: map<string, Contact>
    var addresses: map<string, Address>

    ghost predicate Valid()
      reads this
    {
      Keyed(contacts, addresses)
    }

    constructor (contacts: map<string, Contact>, addresses: map<string, Address>)
      requires Keyed(contacts, addresses)
      ensures Valid() && this.contacts == contacts && this.addresses == addresses
    {
      this.contacts := contacts;
      this.addresses := addresses;
    }
  }

  datatype TxState = Open | Committed | RolledBack

  /** A transaction on a store: it reads and writes its own view of the rows, which
      replaces the store's rows when it commits and is dropped when it rolls back. */
  class Tx {
    const db: Store
    var contacts: map<string, Contact>
    var addresses: map<string, Address>
    var state: TxState

    constructor Begin(db: Store)
      ensures this.db == db && state == Open
      ensures contacts == db.contacts && addresses == db.addresses
    {
      this.db := db;
      contacts := db.contacts;
      addresses := db.addresses;
      state := Open;
    }

    method FindContact(id: string, userId: string, fault: bool) returns (found: Option<Contact>)
      ensures found == if fault then None else FindByIdAndUserId(contacts, id, userId)
    {
      found := if fault then None else FindByIdAndUserId(contacts, id, userId);
    }

    method FindAddress(id: string, contactId: string, fault: bool) returns (found: Option<Address>)
      ensures found == if fault then None else FindByIdAndContactId(addresses, id, contactId)
    {
      found := if fault then None else FindByIdAndContactId(addresses, id, contactId);
    }

    /** Inserts a row stamped with the creation time. An id already present violates the
        primary key and fails like any other database error; on failure nothing changes. */
    method CreateAddress(address: Address, now: Timestamp, fault: bool) returns (stored: Option<Address>)
      modifies this`addresses
      ensures stored.Some? <==> !fault && address.id !in old(addresses)
      ensures stored.Some? ==> stored.value == address.(createdAt := now, updatedAt := now)
      ensures addresses == if stored.Some? then old(addresses)[address.id := stored.value] else old(addresses)
    {
      if fault || address.id in addresses {
        return None;
      }
      stored := Some(address.(createdAt := now, updatedAt := now));
      addresses := addresses[address.id := stored.value];
    }

    /** Saves every column of the row, stamping the update time; on failure nothing changes. */
    method UpdateAddress(address: Address, now: Timestamp, fault: bool) returns (stored: Option<Address>)
      modifies this`addresses
      ensures stored.Some? <==> !fault
      ensures stored.Some? ==> stored.value == address.(updatedAt := now)
      ensures addresses == if stored.Some? then old(addresses)[address.id := stored.value] else old(addresses)
    {
      if fault {
        return None;
      }
      stored := Some(address.(updatedAt := now));
      addresses := addresses[address.id := stored.value];
    }

    /** Publishes the transaction's view to the store, unless the database refuses. */
    method Commit(fault: bool) returns (ok: bool)
      requires state == Open
      modifies this`state, db
      ensures ok == !fault
      ensures ok ==> state == Committed && db.contacts == contacts && db.addresses == addresses
      ensures !ok ==> state == Open && unchanged(db)
    {
      if fault {
        return false;
      }
      db.contacts, db.addresses := contacts, addresses;
      state := Committed;
      ok := true;
    }

    /** Ends a transaction that has not committed; after a commit it does nothing. */
    method Rollback()
      modifies this`state
      ensures state == if old(state) == Open then RolledBack else old(state)
    {
      if state == Open {
        state := RolledBack;
      }
    }
  }
}
