/** Page arithmetic of the image finder: the provider serves results in pages
    of a fixed size, and the component derives the number of pages from the
    total number of hits the provider reports. */
module Pagination {

  /** Number of images per provider page (the divisor at App.jsx:71). */
  const PAGE_SIZE: nat := 12

  /** `Math.ceil(totalHits / 12)`, computed on naturals: the number of pages
      of PAGE_SIZE images needed to hold `totalHits` images. The last page may
      be partial, every page before it is full. */
  function TotalPages(totalHits: nat): (pages: nat)
    ensures PAGE_SIZE * pages - PAGE_SIZE < totalHits <= PAGE_SIZE * pages
    ensures pages == 0 <==> totalHits == 0
  {
    (totalHits + PAGE_SIZE - 1) / PAGE_SIZE
  }

  /** TotalPages is the only page count for which all hits fit and the last
      page is non-empty, and no smaller count holds all hits. */
  lemma TotalPagesIsLeast(totalHits: nat, pages: nat)
    ensures totalHits <= PAGE_SIZE * pages ==> TotalPages(totalHits) <= pages
    ensures PAGE_SIZE * pages - PAGE_SIZE < totalHits <= PAGE_SIZE * pages ==> pages == TotalPages(totalHits)
  {
  }

  /** When the provider reports more hits than the pages before `page` hold,
      `page` is within the page count. */
  lemma PageWithinTotal(totalHits: nat, page: nat)
    requires PAGE_SIZE * (page - 1) < totalHits
    ensures page <= TotalPages(totalHits)
  {
  }
}
