/**
 * The selection pipeline of service/dataselector.go: a list of cells (objects that report a name
 * and a creation time) that is filtered by name, sorted newest first and cut into one page.
 * The specification functions come first, then the lemmas about them, then the dataSelector
 * class whose methods change its list in place and are proved against those functions.
 */
module DataSelect {

  import opened Results
  import opened KubeTypes
  import opened GoStrings

  /** A DataCell: the object together with the name and creation time it reports. */
  datatype Cell<T> = Cell(name: string, creation: int, obj: T)

  datatype FilterQuery = FilterQuery(name: string)

  /** limit is the number of items on a page, page the 1-based page number. */
  datatype PaginateQuery = PaginateQuery(limit: int, page: int)

  datatype DataSelectQuery = DataSelectQuery(filter: FilterQuery, paginate: PaginateQuery)

  /** The query GetPods and GetDeployment build from their filter name, limit and page. */
  function SelectQuery(filterName: string, limit: int, page: int): DataSelectQuery
  {
    DataSelectQuery(FilterQuery(filterName), PaginateQuery(limit, page))
  }

  /** podCell: a pod reports its own name and creation timestamp. */
  function PodCell(p: Pod): (c: Cell<Pod>)
    ensures c.name == p.meta.name && c.creation == p.meta.creationTimestamp && c.obj == p
  {
    Cell(p.meta.name, p.meta.creationTimestamp, p)
  }

  /** deploymentCell: a deployment reports its own name and creation timestamp. */
  function DeploymentCell(d: Deployment): (c: Cell<Deployment>)
    ensures c.name == d.meta.name && c.creation == d.meta.creationTimestamp && c.obj == d
  {
    Cell(d.meta.name, d.meta.creationTimestamp, d)
  }

  /** The objects inside the cells, in order. */
  function Objects<T(!new)>(cells: seq<Cell<T>>): (objs: seq<T>)
    ensures |objs| == |cells|
  {
    seq(|cells|, i requires 0 <= i < |cells| => cells[i].obj)
  }

  // ---------------------------------------------------------------------------
  // Filter

  /** The cells whose name contains `name`, in their original order. */
  function KeepMatching<T(!new)>(cells: seq<Cell<T>>, name: string): seq<Cell<T>>
    decreases |cells|
  {
    if cells == [] then []
    else
      var last := cells[|cells| - 1];
      KeepMatching(cells[..|cells| - 1], name) + (if Contains(last.name, name) then [last] else [])
  }

  /** What Filter leaves in the list: everything for an empty name, else the matching cells. */
  function Filtered<T(!new)>(cells: seq<Cell<T>>, name: string): seq<Cell<T>>
  {
    if name == "" then cells else KeepMatching(cells, name)
  }

  /** a is obtained from b by deleting elements. */
  ghost predicate IsSubsequence<T(!new)>(a: seq<T>, b: seq<T>)
    decreases |b|
  {
    if a == [] then true
    else if b == [] then false
    else (a[|a| - 1] == b[|b| - 1] && IsSubsequence(a[..|a| - 1], b[..|b| - 1]))
         || IsSubsequence(a, b[..|b| - 1])
  }

  lemma {:induction false} KeepMatchingMembers<T(!new)>(cells: seq<Cell<T>>, name: string)
    ensures forall c :: c in KeepMatching(cells, name) <==> c in cells && Contains(c.name, name)
    decreases |cells|
  {
    if cells != [] {
      var init := cells[..|cells| - 1];
      KeepMatchingMembers(init, name);
      assert cells == init + [cells[|cells| - 1]];
    }
  }

  /** Each matching cell is kept as many times as it occurs; every other cell is dropped. */
  lemma {:induction false} KeepMatchingCounts<T(!new)>(cells: seq<Cell<T>>, name: string)
    ensures forall c :: multiset(KeepMatching(cells, name))[c]
                        == if Contains(c.name, name) then multiset(cells)[c] else 0
    decreases |cells|
  {
    if cells != [] {
      var init := cells[..|cells| - 1];
      KeepMatchingCounts(init, name);
      assert cells == init + [cells[|cells| - 1]];
    }
  }

  lemma {:induction false} KeepMatchingIsSubsequence<T(!new)>(cells: seq<Cell<T>>, name: string)
    ensures IsSubsequence(KeepMatching(cells, name), cells)
    decreases |cells|
  {
    if cells != [] {
      var init := cells[..|cells| - 1];
      var r := KeepMatching(cells, name);
      KeepMatchingIsSubsequence(init, name);
      assert cells[..|cells| - 1] == init;
      if Contains(cells[|cells| - 1].name, name) {
        assert r == KeepMatching(init, name) + [cells[|cells| - 1]];
        assert r[..|r| - 1] == KeepMatching(init, name);
        assert r[|r| - 1] == cells[|cells| - 1];
      } else {
        assert r == KeepMatching(init, name);
      }
    }
  }

  lemma {:induction false} KeepMatchingAllMatch<T(!new)>(cells: seq<Cell<T>>, name: string)
    requires forall c :: c in cells ==> Contains(c.name, name)
    ensures KeepMatching(cells, name) == cells
    decreases |cells|
  {
    if cells != [] {
      var init := cells[..|cells| - 1];
      forall c | c in init ensures c in cells {
        var k :| 0 <= k < |init| && init[k] == c;
        assert cells[k] == c;
      }
      KeepMatchingAllMatch(init, name);
      assert cells == cells[..|cells| - 1] + [cells[|cells| - 1]];
    }
  }

  /**
   * Filter keeps exactly the cells whose name contains the query name, each as often as it
   * occurs, keeps their order, and applying it again changes nothing.
   */
  lemma {:induction false} FilterSpec<T(!new)>(cells: seq<Cell<T>>, name: string)
    ensures forall c :: c in Filtered(cells, name) <==> c in cells && Contains(c.name, name)
    ensures forall c :: multiset(Filtered(cells, name))[c]
                        == if Contains(c.name, name) then multiset(cells)[c] else 0
    ensures IsSubsequence(Filtered(cells, name), cells)
    ensures |Filtered(cells, name)| <= |cells|
    ensures Filtered(Filtered(cells, name), name) == Filtered(cells, name)
  {
    KeepMatchingMembers(cells, name);
    KeepMatchingCounts(cells, name);
    KeepMatchingIsSubsequence(cells, name);
    SubsequenceLength(KeepMatching(cells, name), cells);
    if name == "" {
      SubsequenceReflexive(cells);
      forall c | c in cells ensures Contains(c.name, name) {
        ContainsEmpty(c.name);
      }
    } else {
      var r := KeepMatching(cells, name);
      assert forall c :: c in r ==> Contains(c.name, name) by {
        KeepMatchingMembers(cells, name);
      }
      KeepMatchingAllMatch(r, name);
    }
  }

  /** The early return for an empty name changes nothing: filtering by "" keeps every cell. */
  lemma EmptyNameKeepsAll<T(!new)>(cells: seq<Cell<T>>)
    ensures KeepMatching(cells, "") == cells
  {
    forall c | c in cells ensures Contains(c.name, "") {
      ContainsEmpty(c.name);
    }
    KeepMatchingAllMatch(cells, "");
  }

  lemma {:induction false} SubsequenceReflexive<T(!new)>(s: seq<T>)
    ensures IsSubsequence(s, s)
    decreases |s|
  {
    if s != [] {
      SubsequenceReflexive(s[..|s| - 1]);
    }
  }

  lemma {:induction false} SubsequenceLength<T(!new)>(a: seq<T>, b: seq<T>)
    requires IsSubsequence(a, b)
    ensures |a| <= |b|
    decreases |b|
  {
    if a != [] {
      if a[|a| - 1] == b[|b| - 1] && IsSubsequence(a[..|a| - 1], b[..|b| - 1]) {
        SubsequenceLength(a[..|a| - 1], b[..|b| - 1]);
      } else {
        SubsequenceLength(a, b[..|b| - 1]);
      }
    }
  }

  // ---------------------------------------------------------------------------
  // Sort

  /** Creation times never increase along the list: the newest cell comes first. */
  ghost predicate NewestFirst<T(!new)>(s: seq<Cell<T>>)
  {
    forall i, j :: 0 <= i < j < |s| ==> s[j].creation <= s[i].creation
  }

  // ---------------------------------------------------------------------------
  // Paginate, as written

  /** A limit or page of zero or below switches pagination off. */
  predicate PagingOff(limit: int, page: int)
  {
    limit <= 0 || page <= 0
  }

  /** startIndex := limit * (page - 1) */
  function PageStart(limit: int, page: int): int
  {
    limit * (page - 1)
  }

  /** endIndex := limit*page - 1, reset to len - 1 when it passes the length. */
  function PageEnd(n: int, limit: int, page: int): int
  {
    if limit * page - 1 > n then n - 1 else limit * page - 1
  }

  /** The slice list[startIndex:endIndex] is out of range, and Go panics. */
  predicate PagePanics(n: int, limit: int, page: int)
  {
    !PagingOff(limit, page) && PageStart(limit, page) > PageEnd(n, limit, page)
  }

  /** What Paginate leaves in the list; None where the slice expression panics. */
  function Paginated<T(!new)>(cells: seq<Cell<T>>, limit: int, page: int): (r: Option<seq<Cell<T>>>)
    ensures PagingOff(limit, page) ==> r == Some(cells)
    ensures r.None? <==> PagePanics(|cells|, limit, page)
  {
    if PagingOff(limit, page) then Some(cells)
    else if PagePanics(|cells|, limit, page) then None
    else
      assert 0 <= PageStart(limit, page) by { ProductNonNegative(limit, page - 1); }
      Some(cells[PageStart(limit, page)..PageEnd(|cells|, limit, page)])
  }

  lemma ProductNonNegative(a: int, b: int)
    requires 0 <= a && 0 <= b
    ensures 0 <= a * b
  {
  }

  /**
   * A page that does not panic is the contiguous run of cells from limit*(page-1) up to the
   * clamped end, and it holds at most limit - 1 cells.
   */
  lemma PaginatedWindow<T(!new)>(cells: seq<Cell<T>>, limit: int, page: int)
    requires !PagingOff(limit, page) && !PagePanics(|cells|, limit, page)
    ensures var start := PageStart(limit, page);
      0 <= start <= PageEnd(|cells|, limit, page) <= |cells|
      && Paginated(cells, limit, page) == Some(cells[start..PageEnd(|cells|, limit, page)])
    ensures |Paginated(cells, limit, page).value| <= limit - 1
  {
    ProductNonNegative(limit, page - 1);
    assert limit * page == limit * (page - 1) + limit;
  }

  /**
   * When Paginate panics: a page that starts at or past the end of the list, except a page of
   * one item that starts exactly at the end.
   */
  lemma PagePanicsIff(n: nat, limit: int, page: int)
    requires !PagingOff(limit, page)
    ensures PagePanics(n, limit, page)
      <==> PageStart(limit, page) >= n && !(limit == 1 && PageStart(limit, page) == n)
  {
    assert limit * page == limit * (page - 1) + limit;
  }

  // ---------------------------------------------------------------------------
  // Paginate, corrected

  function Min(a: int, b: int): int
  {
    if a <= b then a else b
  }

  /** The intended page: limit items from limit*(page-1) on, fewer at the end, none past it. */
  function CorrectedPage<T(!new)>(cells: seq<Cell<T>>, limit: int, page: int): (r: seq<Cell<T>>)
  {
    if PagingOff(limit, page) then cells
    else
      var start := PageStart(limit, page);
      if start >= |cells| then []
      else
        assert 0 <= start by { ProductNonNegative(limit, page - 1); }
        cells[start..Min(start + limit, |cells|)]
  }

  /** The corrected page holds min(limit, len - start) cells from start on, and never fails. */
  lemma CorrectedPageSize<T(!new)>(cells: seq<Cell<T>>, limit: int, page: int)
    requires !PagingOff(limit, page)
    ensures var start := PageStart(limit, page);
      var r := CorrectedPage(cells, limit, page);
      0 <= start
      && |r| == (if start >= |cells| then 0 else Min(limit, |cells| - start))
      && (start < |cells| ==> r == cells[start..start + |r|])
  {
    ProductNonNegative(limit, page - 1);
  }

  /** Pages 1 to k of the corrected pagination, one after the other. */
  function FirstPages<T(!new)>(cells: seq<Cell<T>>, limit: int, k: nat): seq<Cell<T>>
    requires limit > 0
  {
    if k == 0 then [] else FirstPages(cells, limit, k - 1) + CorrectedPage(cells, limit, k)
  }

  /** The corrected pages tile the list: the first k pages are its first k*limit cells. */
  lemma {:induction false} CorrectedPagesTile<T(!new)>(cells: seq<Cell<T>>, limit: int, k: nat)
    requires limit > 0
    ensures FirstPages(cells, limit, k) == cells[..Min(k * limit, |cells|)]
  {
    if k > 0 {
      CorrectedPagesTile(cells, limit, k - 1);
      CorrectedPageSize(cells, limit, k);
      assert k * limit == (k - 1) * limit + limit;
      assert PageStart(limit, k) == (k - 1) * limit;
      var prev := Min((k - 1) * limit, |cells|);
      if (k - 1) * limit < |cells| {
        assert cells[..Min(k * limit, |cells|)] == cells[..prev] + cells[prev..Min(k * limit, |cells|)];
      }
    }
  }

  /**
   * The code as written against the corrected page: it is the corrected page itself exactly when
   * limit*page - 1 equals the length, and otherwise the corrected page without its last cell.
   */
  lemma PaginatedVsCorrected<T(!new)>(cells: seq<Cell<T>>, limit: int, page: int)
    requires !PagingOff(limit, page) && !PagePanics(|cells|, limit, page)
    ensures var r := Paginated(cells, limit, page).value;
      var c := CorrectedPage(cells, limit, page);
      if limit * page - 1 == |cells| then r == c else |c| > 0 && r == c[..|c| - 1]
  {
    ProductNonNegative(limit, page - 1);
    assert limit * page == limit * (page - 1) + limit;
  }

  /** Finding: a first page of limit 3 over three cells shows only two of them. */
  lemma PaginateDropsLastCell<T(!new)>(cells: seq<Cell<T>>)
    requires |cells| == 3
    ensures Paginated(cells, 3, 1) == Some(cells[..2])
    ensures CorrectedPage(cells, 3, 1) == cells
  {
  }

  /** Finding: a page past the end, or any page of limit 2 or more over no cells, panics. */
  lemma PaginatePanicsPastEnd<T(!new)>(cells: seq<Cell<T>>)
    requires |cells| == 5
    ensures Paginated(cells, 3, 3) == None && CorrectedPage(cells, 3, 3) == []
    ensures Paginated<T>([], 2, 1) == None && CorrectedPage<T>([], 2, 1) == []
  {
    assert PageStart(3, 3) == 6;
  }

  // ---------------------------------------------------------------------------
  // The whole pipeline

  /**
   * total and items are what Filter, then len, then Sort, then Paginate give for `cells`:
   * total counts the filtered cells, and items is the page, cut from some newest-first
   * ordering of the filtered cells, unwrapped.
   */
  ghost predicate IsSelection<T(!new)>(cells: seq<Cell<T>>, q: DataSelectQuery, total: int, items: seq<T>)
  {
    var filtered := Filtered(cells, q.filter.name);
    total == |filtered|
    && exists sorted :: NewestFirst(sorted) && multiset(sorted) == multiset(filtered)
         && Paginated(sorted, q.paginate.limit, q.paginate.page).Some?
         && Objects(Paginated(sorted, q.paginate.limit, q.paginate.page).value) == items
  }

  /**
   * Every item of a selection is the object of some input cell whose name matches the filter,
   * and there are no more items than the total.
   */
  lemma SelectionItemsMatch<T(!new)>(cells: seq<Cell<T>>, q: DataSelectQuery, total: int, items: seq<T>)
    requires IsSelection(cells, q, total, items)
    ensures |items| <= total
    ensures forall x :: x in items ==> exists c :: c in cells && c.obj == x && Contains(c.name, q.filter.name)
  {
    var filtered := Filtered(cells, q.filter.name);
    var limit, page := q.paginate.limit, q.paginate.page;
    var sorted :| NewestFirst(sorted) && multiset(sorted) == multiset(filtered)
      && Paginated(sorted, limit, page).Some?
      && Objects(Paginated(sorted, limit, page).value) == items;
    var pg := Paginated(sorted, limit, page).value;
    assert |sorted| == |filtered| by {
      assert |multiset(sorted)| == |multiset(filtered)|;
    }
    if !PagingOff(limit, page) {
      PaginatedWindow(sorted, limit, page);
    }
    FilterSpec(cells, q.filter.name);
    forall x | x in items ensures exists c :: c in cells && c.obj == x && Contains(c.name, q.filter.name) {
      var i :| 0 <= i < |items| && items[i] == x;
      var c := pg[i];
      assert c.obj == x;
      assert c in sorted;
      assert c in multiset(filtered);
      assert c in filtered;
    }
  }

  // ---------------------------------------------------------------------------
  // The dataSelector object

  /**
   * dataSelector: the list being selected from (GenericDataList) and the query (DataSelect).
   * Len, Less and Swap are the sort.Interface through which Sort permutes the list.
   */
  class DataSelector<T(!new)> {
    var list: seq<Cell<T>>
    var query: DataSelectQuery

    constructor (list: seq<Cell<T>>, query: DataSelectQuery)
      ensures this.list == list && this.query == query
    {
      this.list := list;
      this.query := query;
    }

    /** The number of cells in the list. */
    function Len(): (n: int)
      reads this
      ensures n == |list| && n >= 0
    {
      |list|
    }

    /** Cell i sorts before cell j when j was created strictly before i. */
    predicate Less(i: int, j: int)
      reads this
      requires 0 <= i < |list| && 0 <= j < |list|
      ensures Less(i, j) <==> list[j].creation < list[i].creation
      ensures Less(i, j) ==> i != j && !(list[i].creation < list[j].creation)
    {
      list[j].creation < list[i].creation
    }

    method Swap(i: int, j: int)
      requires 0 <= i < |list| && 0 <= j < |list|
      modifies this
      ensures list == old(list)[i := old(list)[j]][j := old(list)[i]]
      ensures multiset(list) == multiset(old(list))
      ensures query == old(query)
    {
      list := list[i := list[j]][j := list[i]];
    }

    /**
     * sort.Sort(d): an insertion sort through Less and Swap. sort.Sort is not stable, so the
     * contract promises only the order of creation times and that no cell is lost or added.
     */
    method Sort()
      modifies this
      ensures NewestFirst(list)
      ensures multiset(list) == multiset(old(list))
      ensures query == old(query)
    {
      var n := Len();
      for i := 0 to n
        invariant |list| == n && query == old(query)
        invariant multiset(list) == multiset(old(list))
        invariant forall a, b :: 0 <= a < b < i ==> list[b].creation <= list[a].creation
      {
        var j := i;
        while j > 0 && Less(j, j - 1)
          invariant 0 <= j <= i
          invariant |list| == n && query == old(query)
          invariant multiset(list) == multiset(old(list))
          invariant forall a, b :: 0 <= a < b <= i && a != j && b != j ==> list[b].creation <= list[a].creation
          invariant forall b :: j < b <= i ==> list[b].creation <= list[j].creation
        {
          Swap(j, j - 1);
          j := j - 1;
        }
      }
    }

    /** Keep the cells whose name contains the query name; an empty name keeps them all. */
    method Filter()
      modifies this
      ensures list == Filtered(old(list), query.filter.name)
      ensures query == old(query)
    {
      if query.filter.name == "" {
        return;
      }
      var filtered: seq<Cell<T>> := [];
      for i := 0 to |list|
        invariant filtered == KeepMatching(list[..i], query.filter.name)
      {
        assert list[..i + 1][..i] == list[..i];
        if Contains(list[i].name, query.filter.name) {
          filtered := filtered + [list[i]];
        }
      }
      assert list[..|list|] == list;
      list := filtered;
    }

    /**
     * Cut the page list[limit*(page-1) : limit*page-1] (end clamped to len-1). Returns false,
     * leaving the list alone, where Go's slice expression panics.
     */
    method Paginate() returns (ok: bool)
      modifies this
      ensures ok <==> !PagePanics(|old(list)|, query.paginate.limit, query.paginate.page)
      ensures ok ==> Some(list) == Paginated(old(list), query.paginate.limit, query.paginate.page)
      ensures !ok ==> list == old(list)
      ensures query == old(query)
    {
      var limit := query.paginate.limit;
      var page := query.paginate.page;
      if limit <= 0 || page <= 0 {
        return true;
      }
      var startIndex := limit * (page - 1);
      var endIndex := limit * page - 1;
      if endIndex > |list| {
        endIndex := |list| - 1;
      }
      if startIndex > endIndex {
        return false;
      }
      ProductNonNegative(limit, page - 1);
      list := list[startIndex..endIndex];
      return true;
    }
  }
}
