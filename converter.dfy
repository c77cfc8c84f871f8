/** Projections from stored rows to the response shapes. */
module Converter {
  import opened Entity
  import opened Model

  /** The client-facing view of an address: every column except the owning contact. */
  function AddressToResponse(address: Address): (response: AddressResponse)
    ensures response.id == address.id
    ensures response.street == address.street && response.city == address.city
    ensures response.province == address.province && response.postalCode == address.postalCode
    ensures response.country == address.country
    ensures response.createdAt == address.createdAt && response.updatedAt == address.updatedAt
  {
    AddressResponse(
      address.id, address.street, address.city, address.province,
      address.postalCode, address.country, address.createdAt, address.updatedAt)
  }

  /** The client-facing view of a contact: every column except the owning user. */
  function ContactToResponse(contact: Contact): (response: ContactResponse)
    ensures response.id == contact.id
    ensures response.firstName == contact.firstName && response.lastName == contact.lastName
    ensures response.email == contact.email && response.phone == contact.phone
    ensures response.createdAt == contact.createdAt && response.updatedAt == contact.updatedAt
  {
    ContactResponse(
      contact.id, contact.firstName, contact.lastName, contact.email,
      contact.phone, contact.createdAt, contact.updatedAt)
  }

  /** The owning contact is not part of an address's response... */
  lemma AddressResponseHidesOwner(address: Address, otherContact: string)
    ensures AddressToResponse(address.(contactId := otherContact)) == AddressToResponse(address)
  {
  }

  /** ...and it is the only column left out: two addresses with the same response
      differ at most in their owning contact. */
  lemma AddressResponseDeterminesRow(a: Address, b: Address)
    requires AddressToResponse(a) == AddressToResponse(b)
    ensures a == b.(contactId := a.contactId)
  {
    assert a.id == AddressToResponse(a).id;
  }

  /** The owning user is not part of a contact's response... */
  lemma ContactResponseHidesOwner(contact: Contact, otherUser: string)
    ensures ContactToResponse(contact.(userId := otherUser)) == ContactToResponse(contact)
  {
  }

  /** ...and it is the only column left out. */
  lemma ContactResponseDeterminesRow(a: Contact, b: Contact)
    requires ContactToResponse(a) == ContactToResponse(b)
    ensures a == b.(userId := a.userId)
  {
    assert a.id == ContactToResponse(a).id;
  }
}
