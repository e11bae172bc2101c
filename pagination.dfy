/**
 * Result pages: `paginate` cuts the listings into pages of a fixed size,
 * and `getAllHomes` joins the pages back into one list.
 */
module Pagination {

  /** The number of listings per page when none is given. */
  const DefaultHomesPerPage: nat := 8

  /** The pages `paginate` produces: consecutive slices of `size` items, the last one possibly shorter. */
  function Chunks<T>(items: seq<T>, size: nat): (pages: seq<seq<T>>)
    requires size > 0
    ensures forall i :: 0 <= i < |pages| ==> 0 < |pages[i]| <= size
    ensures forall i :: 0 <= i < |pages| - 1 ==> |pages[i]| == size
    decreases |items|
  {
    if |items| == 0 then []
    else if |items| <= size then [items]
    else [items[..size]] + Chunks(items[size..], size)
  }

  /** The pages joined in order. */
  function Flatten<T>(pages: seq<seq<T>>): (r: seq<T>)
    ensures |pages| > 0 ==> |r| >= |pages[0]|
  {
    if |pages| == 0 then [] else pages[0] + Flatten(pages[1..])
  }

  /** Joining the pages gives back the input exactly. */
  lemma {:induction false} FlattenChunks<T>(items: seq<T>, size: nat)
    requires size > 0
    ensures Flatten(Chunks(items, size)) == items
    decreases |items|
  {
    if |items| > size {
      FlattenChunks(items[size..], size);
      assert items == items[..size] + items[size..];
    } else if |items| > 0 {
      assert Flatten(Chunks(items, size)) == items + [];
    }
  }

  /** There are ceil(n / size) pages: the smallest count whose capacity holds all items.
      No input gives no page. */
  lemma {:induction false} ChunksCount<T>(items: seq<T>, size: nat)
    requires size > 0
    ensures (|Chunks(items, size)| - 1) * size < |items| <= |Chunks(items, size)| * size
    ensures |items| == 0 <==> |Chunks(items, size)| == 0
    decreases |items|
  {
    if |items| > size {
      var rest := Chunks(items[size..], size);
      ChunksCount(items[size..], size);
      assert |Chunks(items, size)| == 1 + |rest|;
      assert (1 + |rest|) * size == size + |rest| * size;
    }
  }

  /** The pages starting at index `i`, when `i` may have stepped past the end. */
  function From<T>(homes: seq<T>, i: nat): seq<T> {
    if i <= |homes| then homes[i..] else []
  }

  /**
   * `paginate(homes, homesPerPage)`: a loop that pushes the slice starting at
   * `i` and advances `i` by the page size. A slice past the end is cut short.
   */
  method Paginate<T>(homes: seq<T>, homesPerPage: nat) returns (pages: seq<seq<T>>)
    requires homesPerPage > 0
    ensures pages == Chunks(homes, homesPerPage)
  {
    pages := [];
    var i := 0;
    var numberOfHomes := |homes|;
    while i < numberOfHomes
      invariant pages + Chunks(From(homes, i), homesPerPage) == Chunks(homes, homesPerPage)
      decreases numberOfHomes - i
    {
      var end := if i + homesPerPage <= numberOfHomes then i + homesPerPage else numberOfHomes;
      PaginateStep(homes, pages, i, homesPerPage);
      pages := pages + [homes[i..end]];
      i := i + homesPerPage;
    }
    assert Chunks(From(homes, i), homesPerPage) == [];
  }

  /** The loop invariant survives one push of the slice at `i`. */
  lemma PaginateStep<T>(homes: seq<T>, pages: seq<seq<T>>, i: nat, size: nat)
    requires size > 0 && i < |homes|
    requires pages + Chunks(From(homes, i), size) == Chunks(homes, size)
    ensures
      var end := if i + size <= |homes| then i + size else |homes|;
      (pages + [homes[i..end]]) + Chunks(From(homes, i + size), size) == Chunks(homes, size)
  {
    var end := if i + size <= |homes| then i + size else |homes|;
    var later := Chunks(From(homes, i + size), size);
    ChunksStep(homes, i, size);
    assert (pages + [homes[i..end]]) + later == pages + ([homes[i..end]] + later);
  }

  /** One step of the loop: the pages from `i` on are the slice at `i` and the pages after it. */
  lemma ChunksStep<T>(homes: seq<T>, i: nat, size: nat)
    requires size > 0 && i < |homes|
    ensures Chunks(From(homes, i), size) ==
      [homes[i..if i + size <= |homes| then i + size else |homes|]] + Chunks(From(homes, i + size), size)
  {
    var rest := homes[i..];
    if |rest| > size {
      assert rest[size..] == homes[i + size..];
      assert rest[..size] == homes[i..i + size];
      assert Chunks(rest, size) == [rest[..size]] + Chunks(rest[size..], size);
    } else {
      assert Chunks(rest, size) == [rest];
      assert homes[i..|homes|] == rest;
      assert From(homes, i + size) == [];
    }
  }

  /**
   * `getAllHomes`: `pages.reduce((a, b) => a.concat(b))`, which starts from the
   * first page, or `[]` when there are no pages.
   */
  function GetAllHomes<T>(pages: seq<seq<T>>): (r: seq<T>)
    ensures r == Flatten(pages)
  {
    if |pages| == 0 then [] else FoldConcat(pages[0], pages[1..])
  }

  /** The left fold of `concat` over `rest`, starting from `acc`. */
  function FoldConcat<T>(acc: seq<T>, rest: seq<seq<T>>): (r: seq<T>)
    ensures r == acc + Flatten(rest)
    decreases |rest|
  {
    if |rest| == 0 then acc else FoldConcat(acc + rest[0], rest[1..])
  }

  /** Joining the pages gives back the listings, in order. */
  lemma GetAllHomesOfChunks<T>(homes: seq<T>, size: nat)
    requires size > 0
    ensures GetAllHomes(Chunks(homes, size)) == homes
  {
    FlattenChunks(homes, size);
  }

  /** Cutting the joined pages again gives back the same pages when all but the last are full. */
  lemma {:induction false} ChunksOfFlatten<T>(pages: seq<seq<T>>, size: nat)
    requires size > 0
    requires forall i :: 0 <= i < |pages| ==> 0 < |pages[i]| <= size
    requires forall i :: 0 <= i < |pages| - 1 ==> |pages[i]| == size
    ensures Chunks(Flatten(pages), size) == pages
    decreases |pages|
  {
    if |pages| > 0 {
      ChunksOfFlatten(pages[1..], size);
      var all := Flatten(pages);
      if |pages| > 1 {
        assert |pages[1]| > 0;
        assert all[..size] == pages[0] && all[size..] == Flatten(pages[1..]);
      } else {
        assert Flatten(pages[1..]) == [];
        assert all == pages[0];
      }
    }
  }
}
