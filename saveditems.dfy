/**
 * The saved-items list: a text search over title and description combined
 * with an optional type filter that the type buttons toggle.
 */
module SavedItems {
  import opened Js
  import opened Seqs

  datatype ItemType = MessageItem | FileItem | LinkItem | ImageItem

  datatype SavedItem = SavedItem(
    id: int,
    kind: ItemType,
    title: string,
    description: string,
    date: string,
    sender: Option<string>,
    thumbnail: Option<string>)

  /** The bookmarked items the list shows. */
  const SavedItemTable: seq<SavedItem> := [
    SavedItem(1, MessageItem, "Project timeline discussion",
      "We need to finalize the timeline for the new product launch by next week...",
      "2 days ago", Some("Sarah Johnson"), None),
    SavedItem(2, FileItem, "Q1 Marketing Report.pdf", "Quarterly marketing performance summary",
      "1 week ago", Some("Marketing Team"), None),
    SavedItem(3, LinkItem, "Design System Documentation", "https://designsystem.company.com/docs",
      "2 weeks ago", Some("David Chen"), None),
    SavedItem(4, ImageItem, "Logo Concepts", "Final versions of the logo redesign",
      "3 weeks ago", Some("Design Team"), Some("https://via.placeholder.com/100")),
    SavedItem(5, MessageItem, "Meeting Notes: Client Presentation",
      "Key points from our client presentation meeting on Tuesday...",
      "1 month ago", Some("Emily Davis"), None)
  ]

  /** The text search: title or description contains the query, ignoring case. */
  predicate MatchesSearch(item: SavedItem, query: string) {
    MatchesQuery(item.title, query) || MatchesQuery(item.description, query)
  }

  /** The type filter: no filter, or the item has the filtered type. */
  predicate MatchesFilter(item: SavedItem, filter: Option<ItemType>) {
    filter.None? || item.kind == filter.value
  }

  function Keep(query: string, filter: Option<ItemType>): SavedItem -> bool {
    (item: SavedItem) => MatchesSearch(item, query) && MatchesFilter(item, filter)
  }

  /** `filteredItems`: the items passing both the search and the type filter, in list order. */
  function FilteredItems(items: seq<SavedItem>, query: string, filter: Option<ItemType>): (r: seq<SavedItem>)
    ensures forall x :: x in r ==> x in items && MatchesSearch(x, query) && MatchesFilter(x, filter)
    ensures forall x :: x in items && MatchesSearch(x, query) && MatchesFilter(x, filter) ==> x in r
    ensures IsSubsequence(r, items) && |r| <= |items|
  {
    FilterMembers(items, Keep(query, filter));
    FilterIsSubsequence(items, Keep(query, filter));
    Filter(items, Keep(query, filter))
  }

  /** With no search text and no type filter every item is shown, in order. */
  lemma EmptySearchKeepsAll(items: seq<SavedItem>)
    ensures FilteredItems(items, "", None) == items
  {
    forall i | 0 <= i < |items|
      ensures Keep("", None)(items[i])
    {
      EmptyQueryMatches(items[i].title);
    }
    FilterKeepsAll(items, Keep("", None));
  }

  /** Choosing a type shows a part of what "All" shows for the same search. */
  lemma TypeFilterNarrows(items: seq<SavedItem>, query: string, t: ItemType)
    ensures IsSubsequence(FilteredItems(items, query, Some(t)), FilteredItems(items, query, None))
    ensures |FilteredItems(items, query, Some(t))| <= |FilteredItems(items, query, None)|
  {
    FilterNarrowing(items, Keep(query, Some(t)), Keep(query, None));
  }

  /** Typing more search text around the query shows a part of what the query shows. */
  lemma SearchNarrows(items: seq<SavedItem>, q: string, q': string, filter: Option<ItemType>)
    requires Includes(q', q)
    ensures IsSubsequence(FilteredItems(items, q', filter), FilteredItems(items, q, filter))
  {
    forall i | 0 <= i < |items| && Keep(q', filter)(items[i])
      ensures Keep(q, filter)(items[i])
    {
      if MatchesQuery(items[i].title, q') {
        MatchesQueryNarrowing(items[i].title, q, q');
      } else {
        MatchesQueryNarrowing(items[i].description, q, q');
      }
    }
    FilterNarrowing(items, Keep(q', filter), Keep(q, filter));
  }

  /** A type button: selects its type, or clears the filter when that type is already selected. */
  function Toggle(active: Option<ItemType>, t: ItemType): (r: Option<ItemType>)
    ensures active == Some(t) ==> r.None?
    ensures active != Some(t) ==> r == Some(t)
  {
    if active == Some(t) then None else Some(t)
  }

  /** Pressing the same type button twice keeps its type only if it was selected, and otherwise leaves no filter. */
  lemma ToggleTwice(active: Option<ItemType>, t: ItemType)
    ensures Toggle(Toggle(active, t), t) == if active == Some(t) then active else None
    ensures Toggle(Toggle(None, t), t) == None
  {
  }

  /** The list's state: the search text and the type filter. */
  class SavedItemsState {
    var searchQuery: string
    var activeFilter: Option<ItemType>

    constructor ()
      ensures searchQuery == "" && activeFilter.None?
    {
      searchQuery := "";
      activeFilter := None;
    }

    /** The items the list renders: the saved items that match the search and the filter, in list order. */
    function Visible(): (r: seq<SavedItem>)
      reads this
      ensures forall x :: x in r <==> x in SavedItemTable && MatchesSearch(x, searchQuery) && MatchesFilter(x, activeFilter)
      ensures IsSubsequence(r, SavedItemTable)
    {
      FilteredItems(SavedItemTable, searchQuery, activeFilter)
    }

    method SetSearchQuery(query: string)
      modifies this
      ensures searchQuery == query && activeFilter == old(activeFilter)
    {
      searchQuery := query;
    }

    /** The "All" button clears the type filter. */
    method ClickAll()
      modifies this
      ensures activeFilter.None? && searchQuery == old(searchQuery)
    {
      activeFilter := None;
    }

    /** A type button toggles its type. */
    method ClickType(t: ItemType)
      modifies this
      ensures activeFilter == Toggle(old(activeFilter), t)
      ensures searchQuery == old(searchQuery)
      ensures |Visible()| <= |FilteredItems(SavedItemTable, searchQuery, None)|
    {
      activeFilter := Toggle(activeFilter, t);
      if activeFilter.Some? {
        TypeFilterNarrows(SavedItemTable, searchQuery, activeFilter.value);
      }
    }
  }
}
