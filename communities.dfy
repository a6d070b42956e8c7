/**
 * The communities list: the search over name and description, the
 * selected community and its lookup, and the unread badge of a row.
 */
module Communities {
  import opened Js
  import opened Seqs

  datatype Community = Community(
    id: int,
    name: string,
    memberCount: int,
    initials: string,
    color: string,
    description: string,
    unreadCount: Option<int>)

  /** The communities the list shows. */
  const CommunityTable: seq<Community> := [
    Community(1, "Design Hub", 245, "DH", "bg-purple-100 text-purple-600", "Share design resources and feedback", Some(3)),
    Community(2, "Developer Network", 1204, "DN", "bg-blue-100 text-blue-600", "Coding tips and tech discussions", Some(0)),
    Community(3, "Photography", 872, "PH", "bg-amber-100 text-amber-600", "Share and critique photography", Some(12)),
    Community(4, "Book Club", 124, "BC", "bg-green-100 text-green-600", "Monthly book discussions", Some(0)),
    Community(5, "Fitness & Health", 659, "FH", "bg-red-100 text-red-600", "Workout tips and healthy recipes", Some(5))
  ]

  /** The search test: name or description contains the query, ignoring case. */
  predicate MatchesSearch(c: Community, query: string) {
    MatchesQuery(c.name, query) || MatchesQuery(c.description, query)
  }

  function Keep(query: string): Community -> bool {
    (c: Community) => MatchesSearch(c, query)
  }

  /** `filteredCommunities`: the communities whose name or description matches, in list order. */
  function FilteredCommunities(cs: seq<Community>, query: string): (r: seq<Community>)
    ensures forall c :: c in r ==> c in cs && MatchesSearch(c, query)
    ensures forall c :: c in cs && MatchesSearch(c, query) ==> c in r
    ensures IsSubsequence(r, cs) && |r| <= |cs|
  {
    FilterMembers(cs, Keep(query));
    FilterIsSubsequence(cs, Keep(query));
    Filter(cs, Keep(query))
  }

  /** An empty search shows every community in its original order. */
  lemma EmptySearchKeepsAll(cs: seq<Community>)
    ensures FilteredCommunities(cs, "") == cs
  {
    forall i | 0 <= i < |cs|
      ensures Keep("")(cs[i])
    {
      EmptyQueryMatches(cs[i].name);
    }
    FilterKeepsAll(cs, Keep(""));
  }

  /** When q occurs in q', every result for q' is a result for q, in the same order. */
  lemma SearchNarrows(cs: seq<Community>, q: string, q': string)
    requires Includes(q', q)
    ensures IsSubsequence(FilteredCommunities(cs, q'), FilteredCommunities(cs, q))
    ensures |FilteredCommunities(cs, q')| <= |FilteredCommunities(cs, q)|
  {
    forall i | 0 <= i < |cs| && Keep(q')(cs[i])
      ensures Keep(q)(cs[i])
    {
      if MatchesQuery(cs[i].name, q') {
        MatchesQueryNarrowing(cs[i].name, q, q');
      } else {
        MatchesQueryNarrowing(cs[i].description, q, q');
      }
    }
    FilterNarrowing(cs, Keep(q'), Keep(q));
  }

  /** The test `c => c.id === activeCommunityId`. */
  function HasId(id: int): Community -> bool {
    (c: Community) => c.id == id
  }

  /**
   * `activeCommunity`: nothing when the selected id is falsy (null, or 0),
   * otherwise the first community with that id, or nothing when none has it.
   */
  function ActiveCommunity(cs: seq<Community>, activeId: Option<int>): (r: Option<Community>)
    ensures !NumberTruthy(activeId) ==> r.None?
    ensures NumberTruthy(activeId) ==> r == Find(cs, HasId(activeId.value))
    ensures r.Some? ==> r.value in cs && Some(r.value.id) == activeId
    ensures NumberTruthy(activeId) && r.None? ==> forall i :: 0 <= i < |cs| ==> cs[i].id != activeId.value
  {
    if NumberTruthy(activeId) then
      var r := Find(cs, HasId(activeId.value));
      assert forall i :: 0 <= i < |cs| ==> (HasId(activeId.value)(cs[i]) <==> cs[i].id == activeId.value);
      r
    else None
  }

  lemma CommunityIdsDistinct()
    ensures forall a, b :: 0 <= a < b < |CommunityTable| ==> CommunityTable[a].id != CommunityTable[b].id
    ensures forall a :: 0 <= a < |CommunityTable| ==> CommunityTable[a].id != 0
  {
  }

  /** Selecting any listed community by its id brings up exactly that community. */
  lemma SelectingFindsCommunity(i: nat)
    requires i < |CommunityTable|
    ensures ActiveCommunity(CommunityTable, Some(CommunityTable[i].id)) == Some(CommunityTable[i])
  {
    CommunityIdsDistinct();
    var id := CommunityTable[i].id;
    assert HasId(id)(CommunityTable[i]);
    var r := ActiveCommunity(CommunityTable, Some(id));
    var k :| 0 <= k < |CommunityTable| && CommunityTable[k] == r.value;
    assert CommunityTable[k].id == id;
  }

  // ---------------------------------------------------------------------
  // the unread badge

  /** What a row renders in the badge slot. */
  datatype BadgeSlot = Nothing | Text(text: string) | Badge(count: int)

  /**
   * The slot as written: `unreadCount && unreadCount > 0 && <Badge>`. The
   * first falsy operand is the value rendered; React renders nothing for
   * undefined and false, but renders the number 0 as the text "0".
   */
  function BadgeSlotAsWritten(unreadCount: Option<int>): (r: BadgeSlot)
    ensures unreadCount.None? ==> r == Nothing
    ensures unreadCount == Some(0) ==> r == Text("0")
    ensures unreadCount.Some? && unreadCount.value != 0 ==>
      r == if unreadCount.value > 0 then Badge(unreadCount.value) else Nothing
  {
    match unreadCount
    case None => Nothing
    case Some(n) =>
      if n == 0 then Text(DecimalString(0))
      else if n > 0 then Badge(n)
      else Nothing
  }

  /** Two communities of the table have no unread posts, and their rows show a stray "0". */
  lemma StrayZeroInTable()
    ensures CommunityTable[1].unreadCount == Some(0) && CommunityTable[3].unreadCount == Some(0)
    ensures BadgeSlotAsWritten(CommunityTable[1].unreadCount) == Text("0")
    ensures BadgeSlotAsWritten(CommunityTable[3].unreadCount) == Text("0")
  {
    assert DecimalString(0) == "0";
  }

  /** The slot as intended: a badge exactly when the count is defined and positive, and never any text. */
  function BadgeSlotOf(unreadCount: Option<int>): (r: BadgeSlot)
    ensures r.Badge? <==> unreadCount.Some? && unreadCount.value > 0
    ensures r.Badge? ==> r.count == unreadCount.value
    ensures !r.Text?
  {
    if unreadCount.Some? && unreadCount.value > 0 then Badge(unreadCount.value) else Nothing
  }

  /** The two agree except on a count of 0, where only the written slot shows text. */
  lemma BadgeSlotsAgreeExceptZero(unreadCount: Option<int>)
    ensures unreadCount != Some(0) ==> BadgeSlotAsWritten(unreadCount) == BadgeSlotOf(unreadCount)
    ensures unreadCount == Some(0) ==> BadgeSlotAsWritten(unreadCount).Text? && BadgeSlotOf(unreadCount) == Nothing
  {
  }

  // ---------------------------------------------------------------------
  // selection state

  /** The list's state: the search text and the selected community. */
  class CommunitiesState {
    var searchQuery: string
    var activeCommunityId: Option<int>

    constructor ()
      ensures searchQuery == "" && activeCommunityId.None?
    {
      searchQuery := "";
      activeCommunityId := None;
    }

    /** `activeCommunity`: a listed community carrying the selected id, or nothing. */
    function Active(): (r: Option<Community>)
      reads this
      ensures r.Some? ==> r.value in CommunityTable && activeCommunityId == Some(r.value.id)
      ensures r.None? ==> !NumberTruthy(activeCommunityId) || forall i :: 0 <= i < |CommunityTable| ==> CommunityTable[i].id != activeCommunityId.value
    {
      ActiveCommunity(CommunityTable, activeCommunityId)
    }

    method SetSearchQuery(query: string)
      modifies this
      ensures searchQuery == query && activeCommunityId == old(activeCommunityId)
    {
      searchQuery := query;
    }

    /** Clicking a row selects that community, which then is the active one. */
    method Click(i: nat)
      requires i < |CommunityTable|
      modifies this
      ensures activeCommunityId == Some(CommunityTable[i].id)
      ensures Active() == Some(CommunityTable[i])
      ensures searchQuery == old(searchQuery)
    {
      activeCommunityId := Some(CommunityTable[i].id);
      SelectingFindsCommunity(i);
    }

    /** `handleBack`: clears the selection, so no community is active. */
    method Back()
      modifies this
      ensures activeCommunityId.None? && Active().None?
      ensures searchQuery == old(searchQuery)
    {
      activeCommunityId := None;
    }
  }
}
