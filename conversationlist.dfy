/**
 * The conversation list: the search over display names, the other
 * participant of a direct thread and the avatar a row shows.
 */
module ConversationList {
  import opened Js
  import opened Seqs
  import opened Conversations

  /** The search test: the conversation's display name contains the query, ignoring case. */
  function NameMatches(query: string, currentUserId: int): Conversation -> bool {
    (c: Conversation) => MatchesQuery(ConversationName(c, currentUserId), query)
  }

  /** `filteredConversations`: the conversations whose display name matches, in list order. */
  function FilteredConversations(cs: seq<Conversation>, query: string, currentUserId: int): (r: seq<Conversation>)
    ensures forall c :: c in r ==> c in cs && MatchesQuery(ConversationName(c, currentUserId), query)
    ensures forall c :: c in cs && MatchesQuery(ConversationName(c, currentUserId), query) ==> c in r
    ensures IsSubsequence(r, cs) && |r| <= |cs|
  {
    FilterMembers(cs, NameMatches(query, currentUserId));
    FilterIsSubsequence(cs, NameMatches(query, currentUserId));
    Filter(cs, NameMatches(query, currentUserId))
  }

  /** An empty search shows every conversation in its original order. */
  lemma EmptySearchKeepsAll(cs: seq<Conversation>, currentUserId: int)
    ensures FilteredConversations(cs, "", currentUserId) == cs
  {
    forall i | 0 <= i < |cs|
      ensures NameMatches("", currentUserId)(cs[i])
    {
      EmptyQueryMatches(ConversationName(cs[i], currentUserId));
    }
    FilterKeepsAll(cs, NameMatches("", currentUserId));
  }

  /** When q occurs in q', every result for q' is a result for q, in the same order. */
  lemma SearchNarrows(cs: seq<Conversation>, q: string, q': string, currentUserId: int)
    requires Includes(q', q)
    ensures IsSubsequence(FilteredConversations(cs, q', currentUserId), FilteredConversations(cs, q, currentUserId))
    ensures forall c :: c in FilteredConversations(cs, q', currentUserId) ==> c in FilteredConversations(cs, q, currentUserId)
  {
    forall i | 0 <= i < |cs| && NameMatches(q', currentUserId)(cs[i])
      ensures NameMatches(q, currentUserId)(cs[i])
    {
      MatchesQueryNarrowing(ConversationName(cs[i], currentUserId), q, q');
    }
    FilterNarrowing(cs, NameMatches(q', currentUserId), NameMatches(q, currentUserId));
    SubsequenceMembers(FilteredConversations(cs, q', currentUserId), FilteredConversations(cs, q, currentUserId));
  }

  /** `getOtherParticipant`: nothing for a group; for a direct thread the first participant who is not the viewer. */
  function OtherParticipantOf(c: Conversation, currentUserId: int): (r: Option<UserWithStatus>)
    ensures c.kind == Group ==> r.None?
    ensures c.kind == Direct ==> r == OtherParticipant(c.participants, currentUserId)
  {
    if c.kind == Direct then OtherParticipant(c.participants, currentUserId) else None
  }

  /** The initials and colour class of a row's avatar. */
  datatype Avatar = Avatar(initials: string, color: string)

  const GroupColor: string := "bg-purple-100 text-purple-600"

  /** `name?.substring(0, 2)`: at most the first two characters of the name. */
  function Prefix2(s: string): (r: string)
    ensures |r| == if |s| < 2 then |s| else 2
    ensures r == s[..|r|]
  {
    if |s| < 2 then s else s[..2]
  }

  /** The optional initials or colour of the other user, with `|| ""` applied. */
  function UserField(u: Option<UserWithStatus>, field: UserWithStatus -> string): (r: string)
    ensures u.None? ==> r == ""
    ensures u.Some? ==> r == field(u.value)
  {
    if u.Some? then OrElse(Some(field(u.value)), "") else ""
  }

  /**
   * `getAvatar`: a direct thread shows the other user's initials and
   * colour, or "" for a missing user; a group shows the first two
   * characters of its name, or "GR" when the name is null or empty, on the
   * fixed purple colour.
   */
  function AvatarOf(c: Conversation, currentUserId: int): (r: Avatar)
    ensures c.kind == Group ==> r.color == GroupColor
    ensures c.kind == Group && StringTruthy(c.name) ==> r.initials == Prefix2(c.name.value) && |r.initials| > 0
    ensures c.kind == Group && !StringTruthy(c.name) ==> r.initials == "GR"
    ensures c.kind == Direct ==>
      var other := OtherParticipant(c.participants, currentUserId);
      && (other.None? ==> r == Avatar("", ""))
      && (other.Some? ==> r == Avatar(other.value.initials, other.value.color))
  {
    if c.kind == Direct then
      var other := OtherParticipantOf(c, currentUserId);
      Avatar(UserField(other, (u: UserWithStatus) => u.initials), UserField(other, (u: UserWithStatus) => u.color))
    else
      var prefix := if c.name.Some? then Some(Prefix2(c.name.value)) else None;
      Avatar(OrElse(prefix, "GR"), GroupColor)
  }

  /**
   * In a direct thread that pairs the viewer with someone else, the avatar
   * and the display name are both the other person's.
   */
  lemma DirectAvatarAndNameAgree(c: Conversation, currentUserId: int)
    requires c.kind == Direct && |c.participants| == 2
    requires c.participants[0].id == currentUserId && c.participants[1].id != currentUserId
    requires c.name.None?
    ensures AvatarOf(c, currentUserId) == Avatar(c.participants[1].initials, c.participants[1].color)
    ensures ConversationName(c, currentUserId) == OrElse(c.participants[1].fullName, "Unknown")
  {
    assert c.participants == [c.participants[0], c.participants[1]];
    OtherParticipantOfPair(c.participants[0], c.participants[1], currentUserId);
  }
}
