/** The address use-case: creating and updating a contact's address inside one
    transaction, after re-checking the ownership chain user -> contact -> address. */
module AddressUseCase {
  import opened Wrappers
  import opened Entity
  import opened Model
  import opened Errors
  import opened Converter
  import opened Repository

  /** Which database calls report an error in one run: the contact lookup, the address
      lookup, the write, the commit. */
  datatype Faults = Faults(findContact: bool, findAddress: bool, write: bool, commit: bool)

  const NoFaults := Faults(false, false, false, false)

  /** What one run returns, and the addresses the store holds afterwards. */
  datatype Outcome = Outcome(result: Result<AddressResponse, Error>, addresses: map<string, Address>)

  /** The contact `contactId` exists and `userId` owns it. */
  ghost predicate OwnedBy(contacts: map<string, Contact>, contactId: string, userId: string)
  {
    contactId in contacts && contacts[contactId].userId == userId
  }

  /** Rows are keyed by id and every address belongs to an existing contact. */
  ghost predicate Integrity(contacts: map<string, Contact>, addresses: map<string, Address>)
  {
    && Keyed(contacts, addresses)
    && forall id :: id in addresses ==> addresses[id].contactId in contacts
  }

  /** The effect of Create on the committed store: validation, then the scoped contact
      lookup, then the insert under the fresh id, then the commit; any failure leaves the
      store as it was. */
  function CreateSpec(contacts: map<string, Contact>, addresses: map<string, Address>, valid: bool,
                      request: CreateAddressRequest, freshId: string, now: Timestamp, faults: Faults): (o: Outcome)
    ensures o.addresses.Keys == addresses.Keys + (if o.result.Success? then {freshId} else {})
    ensures o.result.Success? ==> freshId in o.addresses && o.result.value == AddressToResponse(o.addresses[freshId])
  {
    if !valid then Outcome(Failure(ErrBadRequest), addresses)
    else
      var contact := if faults.findContact then None else FindByIdAndUserId(contacts, request.contactId, request.userId);
      if contact.None? then Outcome(Failure(ErrNotFound), addresses)
      else if faults.write || freshId in addresses || faults.commit then
        Outcome(Failure(ErrInternalServerError), addresses)
      else
        var stored := Address(freshId, contact.value.id, request.street, request.city, request.province,
                              request.postalCode, request.country, now, now);
        Outcome(Success(AddressToResponse(stored)), addresses[freshId := stored])
  }

  /** The effect of Update on the committed store: validation, then both scoped lookups,
      then saving the five text columns, then the commit; any failure leaves the store as
      it was. */
  function UpdateSpec(contacts: map<string, Contact>, addresses: map<string, Address>, valid: bool,
                      request: UpdateAddressRequest, now: Timestamp, faults: Faults): (o: Outcome)
    ensures o.addresses.Keys == addresses.Keys
    ensures o.result.Success? ==> request.id in o.addresses && o.result.value == AddressToResponse(o.addresses[request.id])
  {
    if !valid then Outcome(Failure(ErrBadRequest), addresses)
    else
      var contact := if faults.findContact then None else FindByIdAndUserId(contacts, request.contactId, request.userId);
      if contact.None? then Outcome(Failure(ErrNotFound), addresses)
      else
        var found := if faults.findAddress then None else FindByIdAndContactId(addresses, request.id, contact.value.id);
        if found.None? then Outcome(Failure(ErrNotFound), addresses)
        else if faults.write || faults.commit then Outcome(Failure(ErrInternalServerError), addresses)
        else
          var stored := found.value.(street := request.street, city := request.city, province := request.province,
                                     postalCode := request.postalCode, country := request.country, updatedAt := now);
          Outcome(Success(AddressToResponse(stored)), addresses[request.id := stored])
  }

  // Properties of Create.

  /** Validation comes first: an invalid request is refused with 400 whatever the store
      holds and whatever the database would do, and nothing changes. */
  lemma CreateRejectsInvalid(contacts: map<string, Contact>, addresses: map<string, Address>,
                             request: CreateAddressRequest, freshId: string, now: Timestamp, faults: Faults)
    ensures CreateSpec(contacts, addresses, false, request, freshId, now, faults)
      == Outcome(Failure(ErrBadRequest), addresses)
  {
  }

  /** A valid request for a contact the caller does not own (absent, or owned by another
      user) gets 404 and changes nothing; so does any error of the contact lookup. */
  lemma CreateNeedsOwnedContact(contacts: map<string, Contact>, addresses: map<string, Address>,
                                request: CreateAddressRequest, freshId: string, now: Timestamp, faults: Faults)
    requires !OwnedBy(contacts, request.contactId, request.userId) || faults.findContact
    ensures CreateSpec(contacts, addresses, true, request, freshId, now, faults)
      == Outcome(Failure(ErrNotFound), addresses)
  {
  }

  /** Every failure leaves the addresses as they were and is one of 400, 404 or 500. */
  lemma CreateFailsAtomically(contacts: map<string, Contact>, addresses: map<string, Address>, valid: bool,
                              request: CreateAddressRequest, freshId: string, now: Timestamp, faults: Faults)
    requires CreateSpec(contacts, addresses, valid, request, freshId, now, faults).result.Failure?
    ensures CreateSpec(contacts, addresses, valid, request, freshId, now, faults).addresses == addresses
    ensures CreateSpec(contacts, addresses, valid, request, freshId, now, faults).result.error
      in {ErrBadRequest, ErrNotFound, ErrInternalServerError}
  {
  }

  /** A write, id-collision or commit failure after a successful contact lookup is a
      500, and nothing changes. */
  lemma CreateDatabaseFailureIs500(contacts: map<string, Contact>, addresses: map<string, Address>,
                                   request: CreateAddressRequest, freshId: string, now: Timestamp, faults: Faults)
    requires OwnedBy(contacts, request.contactId, request.userId) && !faults.findContact
    requires faults.write || faults.commit || freshId in addresses
    ensures CreateSpec(contacts, addresses, true, request, freshId, now, faults)
      == Outcome(Failure(ErrInternalServerError), addresses)
  {
  }

  /** A success adds exactly one address: under the fresh id, which was unused, owned by
      the requested contact of the caller, with the request's five text fields and both
      timestamps at the time of the call; every other address is unchanged, and the reply
      is the response of the stored row. */
  lemma CreateAddsExactlyOne(contacts: map<string, Contact>, addresses: map<string, Address>, valid: bool,
                             request: CreateAddressRequest, freshId: string, now: Timestamp, faults: Faults)
    requires Keyed(contacts, addresses)
    requires CreateSpec(contacts, addresses, valid, request, freshId, now, faults).result.Success?
    ensures var o := CreateSpec(contacts, addresses, valid, request, freshId, now, faults);
      && valid && OwnedBy(contacts, request.contactId, request.userId)
      && freshId !in addresses
      && o.addresses.Keys == addresses.Keys + {freshId}
      && (forall id :: id in addresses ==> o.addresses[id] == addresses[id])
      && o.addresses[freshId] == Address(freshId, request.contactId, request.street, request.city,
                                         request.province, request.postalCode, request.country, now, now)
      && o.result.value == AddressToResponse(o.addresses[freshId])
  {
  }

  /** Without validation failure, ownership failure, id collision or database error, Create
      succeeds. */
  lemma CreateSucceedsWhenAllowed(contacts: map<string, Contact>, addresses: map<string, Address>,
                                  request: CreateAddressRequest, freshId: string, now: Timestamp)
    requires OwnedBy(contacts, request.contactId, request.userId) && freshId !in addresses
    ensures CreateSpec(contacts, addresses, true, request, freshId, now, NoFaults).result.Success?
  {
  }

  /** Create keeps every address attached to an existing contact. */
  lemma CreatePreservesIntegrity(contacts: map<string, Contact>, addresses: map<string, Address>, valid: bool,
                                 request: CreateAddressRequest, freshId: string, now: Timestamp, faults: Faults)
    requires Integrity(contacts, addresses)
    ensures Integrity(contacts, CreateSpec(contacts, addresses, valid, request, freshId, now, faults).addresses)
  {
  }

  // Properties of Update.

  /** Validation comes first: an invalid request is refused with 400 and nothing changes. */
  lemma UpdateRejectsInvalid(contacts: map<string, Contact>, addresses: map<string, Address>,
                             request: UpdateAddressRequest, now: Timestamp, faults: Faults)
    ensures UpdateSpec(contacts, addresses, false, request, now, faults) == Outcome(Failure(ErrBadRequest), addresses)
  {
  }

  /** If either hop of the ownership chain fails (the caller does not own the contact, or
      the address is absent or belongs to another contact) or either lookup reports an
      error, a valid request gets 404 and nothing changes. */
  lemma UpdateNeedsBothHops(contacts: map<string, Contact>, addresses: map<string, Address>,
                            request: UpdateAddressRequest, now: Timestamp, faults: Faults)
    requires Keyed(contacts, addresses)
    requires || !OwnedBy(contacts, request.contactId, request.userId)
             || request.id !in addresses
             || addresses[request.id].contactId != request.contactId
             || faults.findContact || faults.findAddress
    ensures UpdateSpec(contacts, addresses, true, request, now, faults) == Outcome(Failure(ErrNotFound), addresses)
  {
  }

  /** Every failure leaves the addresses as they were and is one of 400, 404 or 500. */
  lemma UpdateFailsAtomically(contacts: map<string, Contact>, addresses: map<string, Address>, valid: bool,
                              request: UpdateAddressRequest, now: Timestamp, faults: Faults)
    requires UpdateSpec(contacts, addresses, valid, request, now, faults).result.Failure?
    ensures UpdateSpec(contacts, addresses, valid, request, now, faults).addresses == addresses
    ensures UpdateSpec(contacts, addresses, valid, request, now, faults).result.error
      in {ErrBadRequest, ErrNotFound, ErrInternalServerError}
  {
  }

  /** A write or commit failure after both lookups succeeded is a 500, and nothing
      changes. */
  lemma UpdateDatabaseFailureIs500(contacts: map<string, Contact>, addresses: map<string, Address>,
                                   request: UpdateAddressRequest, now: Timestamp, faults: Faults)
    requires Keyed(contacts, addresses) && OwnedBy(contacts, request.contactId, request.userId)
    requires !faults.findContact && !faults.findAddress
    requires request.id in addresses && addresses[request.id].contactId == request.contactId
    requires faults.write || faults.commit
    ensures UpdateSpec(contacts, addresses, true, request, now, faults)
      == Outcome(Failure(ErrInternalServerError), addresses)
  {
  }

  /** A success needs both hops and changes one row only: the five text fields and the
      update time of the requested address; its id, owning contact and creation time stay,
      every other address is unchanged, and the reply is the response of the stored row. */
  lemma UpdateChangesOneRow(contacts: map<string, Contact>, addresses: map<string, Address>, valid: bool,
                            request: UpdateAddressRequest, now: Timestamp, faults: Faults)
    requires Keyed(contacts, addresses)
    requires UpdateSpec(contacts, addresses, valid, request, now, faults).result.Success?
    ensures var o := UpdateSpec(contacts, addresses, valid, request, now, faults);
      && valid && OwnedBy(contacts, request.contactId, request.userId)
      && request.id in addresses && addresses[request.id].contactId == request.contactId
      && o.addresses.Keys == addresses.Keys
      && (forall id :: id in addresses && id != request.id ==> o.addresses[id] == addresses[id])
      && o.addresses[request.id] == Address(request.id, addresses[request.id].contactId, request.street,
                                            request.city, request.province, request.postalCode, request.country,
                                            addresses[request.id].createdAt, now)
      && o.result.value == AddressToResponse(o.addresses[request.id])
  {
  }

  /** A caller can never change an address that hangs off a contact owned by someone else. */
  lemma UpdateIsolatesTenants(contacts: map<string, Contact>, addresses: map<string, Address>, valid: bool,
                              request: UpdateAddressRequest, now: Timestamp, faults: Faults, id: string)
    requires Keyed(contacts, addresses)
    requires id in addresses && !OwnedBy(contacts, addresses[id].contactId, request.userId)
    ensures var o := UpdateSpec(contacts, addresses, valid, request, now, faults);
      id in o.addresses && o.addresses[id] == addresses[id]
  {
    var o := UpdateSpec(contacts, addresses, valid, request, now, faults);
    if o.result.Success? {
      UpdateChangesOneRow(contacts, addresses, valid, request, now, faults);
    }
  }

  /** Repeating a successful update (same request, same time) changes nothing more and
      gives the same reply. */
  lemma UpdateIsIdempotent(contacts: map<string, Contact>, addresses: map<string, Address>,
                           request: UpdateAddressRequest, now: Timestamp)
    requires Keyed(contacts, addresses)
    requires UpdateSpec(contacts, addresses, true, request, now, NoFaults).result.Success?
    ensures var once := UpdateSpec(contacts, addresses, true, request, now, NoFaults);
      UpdateSpec(contacts, once.addresses, true, request, now, NoFaults) == once
  {
    var once := UpdateSpec(contacts, addresses, true, request, now, NoFaults);
    UpdateChangesOneRow(contacts, addresses, true, request, now, NoFaults);
    assert once.addresses[request.id := once.addresses[request.id]] == once.addresses;
  }

  /** With a valid request, an intact ownership chain and no database error, Update
      succeeds. */
  lemma UpdateSucceedsWhenAllowed(contacts: map<string, Contact>, addresses: map<string, Address>,
                                  request: UpdateAddressRequest, now: Timestamp)
    requires Keyed(contacts, addresses)
    requires OwnedBy(contacts, request.contactId, request.userId)
    requires request.id in addresses && addresses[request.id].contactId == request.contactId
    ensures UpdateSpec(contacts, addresses, true, request, now, NoFaults).result.Success?
  {
  }

  /** Update keeps every address attached to an existing contact. */
  lemma UpdatePreservesIntegrity(contacts: map<string, Contact>, addresses: map<string, Address>, valid: bool,
                                 request: UpdateAddressRequest, now: Timestamp, faults: Faults)
    requires Integrity(contacts, addresses)
    ensures Integrity(contacts, UpdateSpec(contacts, addresses, valid, request, now, faults).addresses)
  {
  }

  // Create and Update together.

  /** The address a user has just created can be updated by the same user through the same
      contact, and only the text fields and update time change. */
  lemma CreatedAddressIsUpdatable(contacts: map<string, Contact>, addresses: map<string, Address>,
                                  create: CreateAddressRequest, freshId: string, created: Timestamp,
                                  update: UpdateAddressRequest, updated: Timestamp)
    requires Keyed(contacts, addresses)
    requires CreateSpec(contacts, addresses, true, create, freshId, created, NoFaults).result.Success?
    requires update.userId == create.userId && update.contactId == create.contactId && update.id == freshId
    ensures var afterCreate := CreateSpec(contacts, addresses, true, create, freshId, created, NoFaults).addresses;
      var o := UpdateSpec(contacts, afterCreate, true, update, updated, NoFaults);
      && o.result.Success?
      && o.addresses == afterCreate[freshId := Address(freshId, create.contactId, update.street, update.city,
                                                       update.province, update.postalCode, update.country,
                                                       created, updated)]
  {
    CreateAddsExactlyOne(contacts, addresses, true, create, freshId, created, NoFaults);
  }

  class AddressUseCase {
    const db: Store
    /** The struct-tag validators of the two request types. */
    const validateCreate: CreateAddressRequest -> bool
    const validateUpdate: UpdateAddressRequest -> bool

    constructor (db: Store, validateCreate: CreateAddressRequest -> bool, validateUpdate: UpdateAddressRequest -> bool)
      ensures this.db == db && this.validateCreate == validateCreate && this.validateUpdate == validateUpdate
    {
      this.db := db;
      this.validateCreate := validateCreate;
      this.validateUpdate := validateUpdate;
    }

    /** Adds an address under the fresh id to a contact the caller owns. Contacts never
        change; the addresses become exactly what CreateSpec says. */
    method Create(request: CreateAddressRequest, freshId: string, now: Timestamp, faults: Faults)
      returns (r: Result<AddressResponse, Error>)
      requires db.Valid()
      modifies db
      ensures db.Valid() && db.contacts == old(db.contacts)
      ensures Outcome(r, db.addresses)
        == CreateSpec(old(db.contacts), old(db.addresses), validateCreate(request), request, freshId, now, faults)
    {
      var tx := new Tx.Begin(db);
      if !validateCreate(request) {
        r := Failure(ErrBadRequest);
      } else {
        var contact := tx.FindContact(request.contactId, request.userId, faults.findContact);
        if contact.None? {
          r := Failure(ErrNotFound);
        } else {
          var address := Address(freshId, contact.value.id, request.street, request.city, request.province,
                                 request.postalCode, request.country, 0, 0);
          var stored := tx.CreateAddress(address, now, faults.write);
          if stored.None? {
            r := Failure(ErrInternalServerError);
          } else {
            var committed := tx.Commit(faults.commit);
            if !committed {
              r := Failure(ErrInternalServerError);
            } else {
              r := Success(AddressToResponse(stored.value));
            }
          }
        }
      }
      // The deferred rollback runs on every exit; after a commit it does nothing.
      tx.Rollback();
      assert tx.state != Open;
    }

    /** Overwrites the five text columns of an address of a contact the caller owns.
        Contacts never change; the addresses become exactly what UpdateSpec says. */
    method Update(request: UpdateAddressRequest, now: Timestamp, faults: Faults)
      returns (r: Result<AddressResponse, Error>)
      requires db.Valid()
      modifies db
      ensures db.Valid() && db.contacts == old(db.contacts)
      ensures Outcome(r, db.addresses)
        == UpdateSpec(old(db.contacts), old(db.addresses), validateUpdate(request), request, now, faults)
    {
      var tx := new Tx.Begin(db);
      if !validateUpdate(request) {
        r := Failure(ErrBadRequest);
      } else {
        var contact := tx.FindContact(request.contactId, request.userId, faults.findContact);
        if contact.None? {
          r := Failure(ErrNotFound);
        } else {
          var found := tx.FindAddress(request.id, contact.value.id, faults.findAddress);
          if found.None? {
            r := Failure(ErrNotFound);
          } else {
            var address := found.value;
            address := address.(street := request.street);
            address := address.(city := request.city);
            address := address.(province := request.province);
            address := address.(postalCode := request.postalCode);
            address := address.(country := request.country);
            var stored := tx.UpdateAddress(address, now, faults.write);
            if stored.None? {
              r := Failure(ErrInternalServerError);
            } else {
              var committed := tx.Commit(faults.commit);
              if !committed {
                r := Failure(ErrInternalServerError);
              } else {
                r := Success(AddressToResponse(stored.value));
              }
            }
          }
        }
      }
      // The deferred rollback runs on every exit; after a commit it does nothing.
      tx.Rollback();
      assert tx.state != Open;
    }
  }
}
