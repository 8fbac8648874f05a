/** The results archive page: one card per entry of `results-archive.json`,
    newest first. */
module Results {
  import opened Wrappers
  import opened PageData
  import opened Sorting

  /** A child of `results-list-grid`. `Message` stands for the template's own
      content, the empty-archive placeholder and the error paragraph. */
  datatype ResultNode =
    | ResultCard(distance: string, name: string, date: string, href: string,
                 target: string, rel: string, button: string)
    | Message(text: string)

  const NoResults := Message("No historical results found in the archive.")
  const ArchiveError := Message(
    "**Error:** We couldn't load the results archive. Please check the **data/results-archive.json** file.")

  /** The comparator `new Date(b.date) - new Date(a.date)`: ascending order of
      the negated date, that is newest first. */
  function NewestFirst(e: ArchiveEntry): int { -e.date }

  function ResultCardFor(e: ArchiveEntry): (c: ResultNode)
    ensures c.ResultCard?
    ensures c.name == (if e.name.Some? then e.name.value else "Unknown Event")
    ensures c.distance == (if e.distance.Some? then e.distance.value else "")
    ensures c.date == (if e.dateDisplay.Some? then e.dateDisplay.value else "Date TBC")
    ensures c.href == (if e.resultsUrl.Some? then e.resultsUrl.value else "#")
    ensures c.target == "_blank" && c.rel == "noopener noreferrer" && c.button == "View Full Results →"
  {
    ResultCard(OrElse(e.distance, ""), OrElse(e.name, "Unknown Event"), OrElse(e.dateDisplay, "Date TBC"),
               OrElse(e.resultsUrl, "#"), "_blank", "noopener noreferrer", "View Full Results →")
  }

  /** The archive's display order has non-increasing dates. */
  lemma {:induction false} NewestFirstIsDescending(entries: seq<ArchiveEntry>)
    ensures forall i, j :: 0 <= i < j < |entries| ==>
              SortBy(entries, NewestFirst)[i].date >= SortBy(entries, NewestFirst)[j].date
  {
    var s := SortBy(entries, NewestFirst);
    forall i, j | 0 <= i < j < |entries| ensures s[i].date >= s[j].date {
      assert NewestFirst(s[i]) <= NewestFirst(s[j]);
    }
  }

  /** No entry is dropped or duplicated, and entries of the same date keep the
      order of the file. */
  lemma {:induction false} NewestFirstKeepsEntries(entries: seq<ArchiveEntry>, date: int)
    ensures multiset(SortBy(entries, NewestFirst)) == multiset(entries)
    ensures KeyFilter(SortBy(entries, NewestFirst), NewestFirst, -date) == KeyFilter(entries, NewestFirst, -date)
  {
    SortByStable(entries, NewestFirst, -date);
  }

  class ResultsPage {
    /** Whether the page has a `results-list-grid`. */
    const hasGrid: bool
    /** Its children. */
    var grid: seq<ResultNode>

    constructor (hasGrid: bool, grid: seq<ResultNode>)
      ensures this.hasGrid == hasGrid && this.grid == grid
    {
      this.hasGrid, this.grid := hasGrid, grid;
    }

    /** `renderResultsLinks`: clears the grid, sorts the array it is given in
        place, newest first, and appends one card per entry in that order.
        Without a grid nothing happens, not even the sort. */
    method RenderResultsLinks(results: array<ArchiveEntry>)
      modifies this`grid, results
      ensures hasGrid ==> results[..] == SortBy(old(results[..]), NewestFirst) &&
                          grid == MapSeq(ResultCardFor, results[..])
      ensures !hasGrid ==> results[..] == old(results[..]) && grid == old(grid)
    {
      if !hasGrid {
        return;
      }
      grid := [];
      InsertionSort(results, NewestFirst);
      ghost var sorted := results[..];
      var i := 0;
      while i < results.Length
        invariant 0 <= i <= results.Length
        invariant results[..] == sorted
        invariant grid == MapSeq(ResultCardFor, results[..i])
      {
        MapSeqSnoc(ResultCardFor, results[..], i);
        grid := grid + [ResultCardFor(results[i])];
        i := i + 1;
      }
      assert results[..i] == results[..];
    }

    /** The page script given the outcome of the fetch. An empty archive on a
        page without a grid makes the placeholder write throw; the error
        handler then finds no grid either, so nothing changes. */
    method Load(response: Fetch<ArchiveEntry>)
      modifies this`grid
      ensures response.Ok? && response.items != [] ==>
                grid == (if hasGrid then MapSeq(ResultCardFor, SortBy(response.items, NewestFirst)) else old(grid))
      ensures response.Ok? && response.items == [] ==>
                grid == (if hasGrid then [NoResults] else old(grid))
      ensures !response.Ok? ==> grid == (if hasGrid then [ArchiveError] else old(grid))
    {
      if !response.Ok? {
        if hasGrid {
          grid := [ArchiveError];
        }
        return;
      }
      var data := response.items;
      if |data| == 0 {
        if hasGrid {
          grid := [NoResults];
        }
        return;
      }
      var results := new ArchiveEntry[|data|](i requires 0 <= i < |data| => data[i]);
      assert results[..] == data;
      RenderResultsLinks(results);
    }
  }
}
