/** The page and sort values the listing operations exchange with storage. */
module Paging {

  datatype Direction = Ascending | Descending

  /** A single-field sort order. */
  datatype Sort = Sort(field: string, direction: Direction)

  /** A page request: zero-based page number, page size and optional sort. */
  datatype PageRequest = PageRequest(page: int, size: int, sort: Sort)

  /** One page of results with the request that produced it and the total
      number of elements across all pages. */
  datatype Page<T> = Page(content: seq<T>, request: PageRequest, totalElements: nat)
}
