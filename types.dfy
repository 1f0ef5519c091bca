/** The records exchanged with the server (client/src/types/index.ts). */
module Types {
  import opened Wrappers

  /** A shipment as the server sends it; never changed by the client. */
  datatype Load = Load(
    id: string,
    origin: string,
    destination: string,
    status: int,
    date: string,
    weight: real,
    carrier: int,
    price: real)

  /** A status or a carrier: a numeric id and its display label (`label` in the source). */
  datatype Reference = Reference(id: int, text: string)

  type Status = Reference
  type Carrier = Reference

  /** Paging metadata computed by the server and taken as it comes. */
  datatype Pagination = Pagination(
    page: int,
    limit: int,
    totalItems: int,
    totalPages: int,
    hasNextPage: bool,
    hasPreviousPage: bool)

  datatype LoadsResponse = LoadsResponse(data: seq<Load>, pagination: Pagination)

  /** The optional arguments of a loads request. */
  datatype LoadsQueryParams = LoadsQueryParams(
    page: Option<int>,
    limit: Option<int>,
    status: Option<int>,
    carrier: Option<int>,
    search: Option<string>)

  /** What a rejected promise carries: an `Error` object with its message, or any other value. */
  datatype Thrown = ErrorObject(message: string) | OtherValue

  /** JavaScript truthiness of an optional number: present and not 0. */
  predicate TruthyNumber(x: Option<int>) {
    x.Some? && x.value != 0
  }

  /** JavaScript truthiness of an optional string: present and not empty. */
  predicate TruthyText(x: Option<string>) {
    x.Some? && x.value != ""
  }
}
