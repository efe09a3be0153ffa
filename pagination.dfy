/**
 * Page selection of the post listing: a paginator with six items per page
 * (no orphans, an empty first page allowed) and the fallback policy the
 * listing view wraps around it — a token that is not an integer gives page
 * one, an integer outside the page range gives the last page.
 */
module Pagination {
  import opened Seqs

  const PerPage: nat := 6

  /** The `page` query parameter after the paginator has tried to read it as an integer. */
  datatype PageToken = Absent | NotAnInteger | Integer(n: int)

  /** One page of a listing with its number and the page count, from which a template draws navigation. */
  datatype Page<T> = Page(items: seq<T>, number: nat, numPages: nat)

  function Min(a: int, b: int): int { if a <= b then a else b }

  /**
   * Number of pages for `count` items: the least positive number of pages of
   * six that holds them all, so an empty collection still has one page.
   */
  function NumPages(count: nat): (n: nat)
    ensures n >= 1
    ensures count <= n * PerPage
    ensures n == 1 || (n - 1) * PerPage < count
  {
    var hits := if count > 1 then count else 1;
    (hits + PerPage - 1) / PerPage
  }

  /**
   * The page number the listing ends up showing: page one for a missing or
   * non-integer token, the token itself when it names a page, and the last
   * page for any other integer (below one or past the end).
   */
  function ResolvePage(count: nat, token: PageToken): (n: nat)
    ensures 1 <= n <= NumPages(count)
    ensures !token.Integer? ==> n == 1
    ensures token.Integer? && 1 <= token.n <= NumPages(count) ==> n == token.n
    ensures token.Integer? && !(1 <= token.n <= NumPages(count)) ==> n == NumPages(count)
  {
    match token
    case Absent => 1
    case NotAnInteger => 1
    case Integer(k) => if k < 1 || k > NumPages(count) then NumPages(count) else k
  }

  /** The items of page `n`: positions from (n-1)*6 up to n*6 or the end. */
  function PageItems<T>(items: seq<T>, n: nat): (r: seq<T>)
    requires 1 <= n <= NumPages(|items|)
    ensures |r| <= PerPage
    ensures (n - 1) * PerPage + |r| == Min(n * PerPage, |items|)
    ensures n < NumPages(|items|) ==> |r| == PerPage
    ensures |items| > 0 ==> |r| > 0
    ensures forall k :: 0 <= k < |r| ==> r[k] == items[(n - 1) * PerPage + k]
  {
    var bottom := (n - 1) * PerPage;
    var top := bottom + PerPage;
    items[bottom..if top >= |items| then |items| else top]
  }

  /** The page shown for `token`. */
  function Paginate<T>(items: seq<T>, token: PageToken): (pg: Page<T>)
    ensures pg.numPages == NumPages(|items|)
    ensures pg.number == ResolvePage(|items|, token)
    ensures pg.items == PageItems(items, pg.number)
  {
    var n := ResolvePage(|items|, token);
    Page(PageItems(items, n), n, NumPages(|items|))
  }

  /** Everything on a page comes from the paginated collection. */
  lemma PageItemsFromCollection<T>(items: seq<T>, n: nat, x: T)
    requires 1 <= n <= NumPages(|items|)
    requires x in PageItems(items, n)
    ensures x in items
  {
    var k :| 0 <= k < |PageItems(items, n)| && PageItems(items, n)[k] == x;
    assert items[(n - 1) * PerPage + k] == x;
  }

  /** A page of a duplicate-free collection is duplicate-free. */
  lemma PageItemsNoDuplicates<T>(items: seq<T>, n: nat)
    requires 1 <= n <= NumPages(|items|)
    ensures NoDuplicates(items) ==> NoDuplicates(PageItems(items, n))
  {
    if NoDuplicates(items) {
      var r := PageItems(items, n);
      forall i, j | 0 <= i < j < |r| ensures r[i] != r[j] {
        assert r[i] == items[(n - 1) * PerPage + i] && r[j] == items[(n - 1) * PerPage + j];
      }
    }
  }

  /** Pages 1..k of `items` laid end to end. */
  function PagesUpTo<T>(items: seq<T>, k: nat): seq<T>
    requires k <= NumPages(|items|)
  {
    if k == 0 then [] else PagesUpTo(items, k - 1) + PageItems(items, k)
  }

  /** The first k pages are the first min(6k, count) items. */
  lemma {:induction false} PagesUpToIsPrefix<T>(items: seq<T>, k: nat)
    requires k <= NumPages(|items|)
    ensures PagesUpTo(items, k) == items[..Min(k * PerPage, |items|)]
  {
    if k > 0 {
      PagesUpToIsPrefix(items, k - 1);
      var lo := Min((k - 1) * PerPage, |items|);
      var hi := Min(k * PerPage, |items|);
      assert lo == (k - 1) * PerPage || (k == 1 && |items| == 0);
      assert PageItems(items, k) == items[lo..hi];
      assert items[..lo] + items[lo..hi] == items[..hi];
    }
  }

  /** Concatenating all pages in order gives back the whole collection. */
  lemma AllPagesReproduceCollection<T>(items: seq<T>)
    ensures PagesUpTo(items, NumPages(|items|)) == items
  {
    PagesUpToIsPrefix(items, NumPages(|items|));
    assert items[..|items|] == items;
  }

  /** Item i is shown on page i/6 + 1, at position i%6. */
  lemma ItemOnItsPage<T>(items: seq<T>, i: nat)
    requires i < |items|
    ensures 1 <= i / PerPage + 1 <= NumPages(|items|)
    ensures i % PerPage < |PageItems(items, i / PerPage + 1)|
    ensures PageItems(items, i / PerPage + 1)[i % PerPage] == items[i]
  {
    var n := i / PerPage + 1;
    assert (n - 1) * PerPage + i % PerPage == i;
    assert (n - 1) * PerPage < |items|;
  }

  /** A token that is absent and one that is not an integer show the same page. */
  lemma NonIntegerActsAsAbsent<T>(items: seq<T>)
    ensures Paginate(items, NotAnInteger) == Paginate(items, Absent)
    ensures Paginate(items, Absent) == Paginate(items, Integer(1))
  {
  }

  /** Thirteen items make three pages; a far-out page number shows the last, one-item page. */
  lemma ThirteenItemsFarPage<T>(items: seq<T>)
    requires |items| == 13
    ensures NumPages(13) == 3
    ensures Paginate(items, Integer(9999)) == Page([items[12]], 3, 3)
  {
    assert PageItems(items, 3) == [items[12]];
  }

  /** Seven items: page one holds six, page two the seventh, page three falls back to page two. */
  lemma SevenItemsExample<T>(items: seq<T>)
    requires |items| == 7
    ensures Paginate(items, Absent).items == items[..6]
    ensures Paginate(items, Integer(2)).items == [items[6]]
    ensures Paginate(items, Integer(3)) == Paginate(items, Integer(2))
  {
    assert PageItems(items, 2) == [items[6]];
  }
}
