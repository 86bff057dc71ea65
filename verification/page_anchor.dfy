/**
 * Which page owns a timestamp, and how the cursor element is moved between
 * page containers when the owning page changes.
 */
module PageAnchor {
  import opened Wrappers
  import opened Graphics

  /**
   * The index of the first page, in page order, whose last system ends
   * strictly after `t`; None when no page does. The comparison is strict
   * because the last timestamp of a page is the first timestamp of the next.
   */
  function OwningPage(pages: seq<Page>, t: real): (r: Option<nat>)
    ensures r.Some? ==> r.value < |pages| && pages[r.value].lastSystemTimestamp > t
    ensures r.Some? ==> forall j :: 0 <= j < r.value ==> pages[j].lastSystemTimestamp <= t
    ensures r.None? <==> forall j :: 0 <= j < |pages| ==> pages[j].lastSystemTimestamp <= t
  {
    if |pages| == 0 then None
    else if pages[0].lastSystemTimestamp > t then Some(0)
    else match OwningPage(pages[1..], t)
      case None => None
      case Some(i) => Some(i + 1)
  }

  /** The owner is the first page ending after `t`: given such an i, it is the answer. */
  lemma OwningPageIs(pages: seq<Page>, t: real, i: nat)
    requires i < |pages| && pages[i].lastSystemTimestamp > t
    requires forall j :: 0 <= j < i ==> pages[j].lastSystemTimestamp <= t
    ensures OwningPage(pages, t) == Some(i)
  {
  }

  /** Pages whose end timestamps strictly increase in page order. */
  ghost predicate EndsIncrease(pages: seq<Page>)
  {
    forall j :: 0 <= j < |pages| - 1 ==> pages[j].lastSystemTimestamp < pages[j + 1].lastSystemTimestamp
  }

  lemma {:induction false} EndsIncreaseOrder(pages: seq<Page>, i: nat, j: nat)
    requires EndsIncrease(pages)
    requires i <= j < |pages|
    ensures pages[i].lastSystemTimestamp <= pages[j].lastSystemTimestamp
    decreases j - i
  {
    if i < j {
      EndsIncreaseOrder(pages, i + 1, j);
    }
  }

  /**
   * Pages partition time: with increasing end timestamps, page i owns exactly
   * the timestamps from the end of page i - 1 (included) to its own end
   * (excluded).
   */
  lemma OwningPagePartition(pages: seq<Page>, t: real, i: nat)
    requires EndsIncrease(pages)
    requires i < |pages|
    ensures OwningPage(pages, t) == Some(i) <==>
      (i == 0 || pages[i - 1].lastSystemTimestamp <= t) && t < pages[i].lastSystemTimestamp
  {
    if (i == 0 || pages[i - 1].lastSystemTimestamp <= t) && t < pages[i].lastSystemTimestamp {
      forall j | 0 <= j < i
        ensures pages[j].lastSystemTimestamp <= t
      {
        EndsIncreaseOrder(pages, j, i - 1);
      }
      OwningPageIs(pages, t, i);
    }
  }

  /**
   * A timestamp equal to the end of page i does not belong to page i; it
   * belongs to the next page when that page ends later.
   */
  lemma BoundaryBelongsToNextPage(pages: seq<Page>, i: nat)
    requires EndsIncrease(pages)
    requires i + 1 < |pages|
    ensures OwningPage(pages, pages[i].lastSystemTimestamp) != Some(i)
    ensures OwningPage(pages, pages[i].lastSystemTimestamp) == Some(i + 1)
  {
    OwningPagePartition(pages, pages[i].lastSystemTimestamp, i + 1);
  }

  /** Two pages meeting at 4/4: 3/4 is on page 1, 4/4 itself on page 2. */
  lemma TwoPageScenario()
    ensures var pages := [Page(1, 1.0), Page(2, 2.0)];
      OwningPage(pages, 0.75) == Some(0) && pages[0].pageNumber == 1 &&
      OwningPage(pages, 1.0) == Some(1) && pages[1].pageNumber == 2
  {
    var pages := [Page(1, 1.0), Page(2, 2.0)];
    OwningPageIs(pages, 0.75, 0);
    OwningPageIs(pages, 1.0, 1);
  }

  /** The element that holds the cursor: the one given at construction, or a page's. */
  datatype Container = InitialContainer | PageContainer(pageNumber: int)

  /** The page number the cursor records and the container it sits in. */
  datatype Anchor = Anchor(pageNumber: int, container: Container)

  /** The cursor sits in the container of the page it records. */
  predicate Anchored(a: Anchor)
  {
    a.container == PageContainer(a.pageNumber)
  }

  /**
   * Re-anchoring to page p: the element moves to page p's container only when
   * p differs from the recorded page; the recorded page becomes p.
   */
  function Reanchor(a: Anchor, p: int): Anchor
  {
    Anchor(p, if p != a.pageNumber then PageContainer(p) else a.container)
  }

  /** Re-anchoring to the same page twice is re-anchoring once. */
  lemma ReanchorIdempotent(a: Anchor, p: int)
    ensures Reanchor(Reanchor(a, p), p) == Reanchor(a, p)
    ensures Reanchor(a, p).pageNumber == p
    ensures a.pageNumber == p ==> Reanchor(a, p) == a
  {
  }

  /**
   * After re-anchoring to a new page the cursor is anchored; re-anchoring
   * keeps a cursor that was anchored anchored.
   */
  lemma ReanchorAnchors(a: Anchor, p: int)
    ensures a.pageNumber != p ==> Anchored(Reanchor(a, p))
    ensures Anchored(a) ==> Anchored(Reanchor(a, p))
  {
  }

  /** Re-anchoring by timestamp: to the owning page if there is one, else no change. */
  function AnchorByTimestamp(a: Anchor, pages: seq<Page>, t: real): Anchor
  {
    match OwningPage(pages, t)
    case None => a
    case Some(i) => Reanchor(a, pages[i].pageNumber)
  }

  /** Re-anchoring by system: to the system's page if there is a system, else no change. */
  function AnchorBySystem(a: Anchor, system: Option<System>): Anchor
  {
    match system
    case None => a
    case Some(s) => Reanchor(a, s.pageNumber)
  }

  /** Re-anchoring by timestamp twice in a row changes nothing the second time. */
  lemma AnchorByTimestampIdempotent(a: Anchor, pages: seq<Page>, t: real)
    ensures AnchorByTimestamp(AnchorByTimestamp(a, pages, t), pages, t) == AnchorByTimestamp(a, pages, t)
  {
  }
}
