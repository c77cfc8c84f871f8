/** Rows of the persistent store. The entity structs are not modelled here; their fields
    are the ones the converters and the use-case read and write. */
module Entity {

  /** Timestamps as the store records them (a number of time units). */
  type Timestamp = int

  datatype Contact = Contact(
    id: string,
    userId: string,
    firstName: string,
    lastName: string,
    email: string,
    phone: string,
    createdAt: Timestamp,
    updatedAt: Timestamp)

  datatype Address = Address(
    id: string,
    contactId: string,
    street: string,
    city: string,
    province: string,
    postalCode: string,
    country: string,
    createdAt: Timestamp,
    updatedAt: Timestamp)
}

/** Request and response shapes exchanged with the HTTP layer. */
module Model {
  import opened Wrappers
  import opened Entity

  /** The authenticated identity the auth gate stores in the request context. */
  datatype Auth = Auth(id: string)

  datatype AddressResponse = AddressResponse(
    id: string,
    street: string,
    city: string,
    province: string,
    postalCode: string,
    country: string,
    createdAt: Timestamp,
    updatedAt: Timestamp)

  datatype ContactResponse = ContactResponse(
    id: string,
    firstName: string,
    lastName: string,
    email: string,
    phone: string,
    createdAt: Timestamp,
    updatedAt: Timestamp)

  datatype CreateAddressRequest = CreateAddressRequest(
    userId: string,
    contactId: string,
    street: string,
    city: string,
    province: string,
    postalCode: string,
    country: string)

  datatype UpdateAddressRequest = UpdateAddressRequest(
    userId: string,
    contactId: string,
    id: string,
    street: string,
    city: string,
    province: string,
    postalCode: string,
    country: string)

  datatype CreateContactRequest = CreateContactRequest(
    userId: string,
    firstName: string,
    lastName: string,
    email: string,
    phone: string)

  datatype UpdateContactRequest = UpdateContactRequest(
    userId: string,
    id: string,
    firstName: string,
    lastName: string,
    email: string,
    phone: string)

  datatype GetContactRequest = GetContactRequest(userId: string, id: string)

  datatype DeleteContactRequest = DeleteContactRequest(userId: string, id: string)

  datatype SearchContactRequest = SearchContactRequest(
    userId: string,
    name: string,
    email: string,
    phone: string,
    page: int,
    size: int)

  datatype PageMetadata = PageMetadata(page: int, size: int, totalItem: int, totalPage: int)

  /** The uniform envelope of a successful reply: the payload and, for searches, paging. */
  datatype WebResponse<T> = WebResponse(data: T, paging: Option<PageMetadata>)
}
