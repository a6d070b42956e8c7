/**
 * Users and conversations of the static data set, and the two labels
 * derived from a conversation: its display name and its participant count.
 */
module Conversations {
  import opened Js
  import opened Seqs

  datatype Status = Online | Offline | Away

  /** A user together with the presence and avatar data the UI shows. */
  datatype UserWithStatus = UserWithStatus(
    id: int,
    username: string,
    fullName: Option<string>,
    avatar: Option<string>,
    status: Status,
    initials: string,
    color: string)

  datatype ConversationType = Direct | Group

  datatype LastMessage = LastMessage(content: string, timestamp: string, senderId: int)

  datatype Conversation = Conversation(
    id: int,
    name: Option<string>,
    kind: ConversationType,
    participants: seq<UserWithStatus>,
    lastMessage: LastMessage,
    unreadCount: int)

  /** The sample users; the first one is the person using the app. */
  const Users: seq<UserWithStatus> := [
    UserWithStatus(1, "current_user", Some("Current User"), None, Online, "ME", "bg-primary text-white"),
    UserWithStatus(2, "sarah_chen", Some("Sarah Chen"), None, Online, "SC", "bg-blue-100 text-primary"),
    UserWithStatus(3, "alex_johnson", Some("Alex Johnson"), None, Online, "AJ", "bg-amber-100 text-amber-600"),
    UserWithStatus(4, "thomas_nelson", Some("Thomas Nelson"), None, Offline, "TN", "bg-red-100 text-red-600"),
    UserWithStatus(5, "emily_martinez", Some("Emily Martinez"), None, Online, "EM", "bg-purple-100 text-purple-600"),
    UserWithStatus(6, "michael_davis", Some("Michael Davis"), None, Offline, "MD", "bg-green-100 text-green-600")
  ]

  /** The sample conversations, in the order the conversation list shows them. */
  const ConversationTable: seq<Conversation> := [
    Conversation(1, None, Direct, [Users[0], Users[1]],
      LastMessage("I've sent you the files you requested, let me know if you need anything else!", "12:42 PM", 2), 0),
    Conversation(2, Some("Design Team"), Group, [Users[0], Users[1], Users[2], Users[4], Users[5]],
      LastMessage("Meeting at 2pm to discuss the new project requirements", "Yesterday", 5), 0),
    Conversation(3, None, Direct, [Users[0], Users[2]],
      LastMessage("Hey, are you free this weekend for the conference?", "Yesterday", 3), 0),
    Conversation(4, Some("Marketing Department"), Group, [Users[0], Users[3], Users[5]],
      LastMessage("The new campaign assets are ready for review", "Tuesday", 6), 0),
    Conversation(5, None, Direct, [Users[0], Users[3]],
      LastMessage("Thanks for your help with the project!", "Monday", 4), 0)
  ]

  /** `getCurrentUser()`: the person using the app is the user with id 1. */
  function CurrentUser(): (u: UserWithStatus)
    ensures u.id == 1 && u in Users
    ensures u.fullName == Some("Current User")
  {
    Users[0]
  }

  /** The test `p => p.id !== userId`. */
  function NotUser(userId: int): UserWithStatus -> bool {
    (p: UserWithStatus) => p.id != userId
  }

  /**
   * `participants.find(p => p.id !== userId)`: the first participant who
   * is not the given user, or undefined when everyone is that user.
   */
  function OtherParticipant(participants: seq<UserWithStatus>, userId: int): (r: Option<UserWithStatus>)
    ensures r.None? <==> forall i :: 0 <= i < |participants| ==> participants[i].id == userId
    ensures r.Some? ==> exists k :: 0 <= k < |participants| && participants[k] == r.value
                          && r.value.id != userId
                          && forall j :: 0 <= j < k ==> participants[j].id == userId
  {
    var r := Find(participants, NotUser(userId));
    assert forall i :: 0 <= i < |participants| ==> (NotUser(userId)(participants[i]) <==> participants[i].id != userId);
    r
  }

  /**
   * `getConversationName`: the explicit name when it is non-empty,
   * otherwise the full name of the first participant other than the viewer,
   * otherwise "Unknown". The result is never empty.
   */
  function ConversationName(c: Conversation, currentUserId: int): (r: string)
    ensures StringTruthy(c.name) ==> r == c.name.value
    ensures !StringTruthy(c.name) ==>
      var other := OtherParticipant(c.participants, currentUserId);
      r == if other.Some? && StringTruthy(other.value.fullName) then other.value.fullName.value else "Unknown"
    ensures |r| > 0
  {
    if StringTruthy(c.name) then c.name.value
    else
      match OtherParticipant(c.participants, currentUserId)
      case Some(u) => OrElse(u.fullName, "Unknown")
      case None => "Unknown"
  }

  /** `${count} ${count === 1 ? 'participant' : 'participants'}`. */
  function ParticipantCountLabel(count: nat): (r: string)
    ensures var k := |DecimalString(count)|;
      && k + 1 < |r| && r[k] == ' '
      && (forall i :: 0 <= i < k ==> IsDigit(r[i]))
      && DecimalValue(r[..k]) == count
      && (count == 1 ==> r[k + 1..] == "participant")
      && (count != 1 ==> r[k + 1..] == "participants")
  {
    DecimalRoundTrip(count);
    var numeral := DecimalString(count);
    var r := numeral + " " + (if count == 1 then "participant" else "participants");
    assert r[..|numeral|] == numeral;
    r
  }

  /** `getParticipantCount`: the singular exactly when there is one participant. */
  function ParticipantCount(c: Conversation): (r: string)
    ensures |c.participants| == 1 ==> r == "1 participant"
    ensures |r| > 0 && (r[|r| - 1] == 's' <==> |c.participants| != 1)
  {
    var r := ParticipantCountLabel(|c.participants|);
    var k := |DecimalString(|c.participants|)|;
    assert r[|r| - 1] == r[k + 1..][|r| - k - 2];
    ParticipantCountOne();
    r
  }

  /** One participant takes the singular. */
  lemma ParticipantCountOne()
    ensures ParticipantCountLabel(1) == "1 participant"
  {
    assert DecimalString(1) == "1";
  }

  /** No participants takes the plural. */
  lemma ParticipantCountZero()
    ensures ParticipantCountLabel(0) == "0 participants"
  {
    assert DecimalString(0) == "0";
  }

  /** A direct thread of the table names the other person, never the viewer. */
  lemma DirectConversationNames()
    ensures ConversationName(ConversationTable[0], CurrentUser().id) == "Sarah Chen"
    ensures ConversationName(ConversationTable[2], CurrentUser().id) == "Alex Johnson"
    ensures ConversationName(ConversationTable[4], CurrentUser().id) == "Thomas Nelson"
    ensures ConversationName(ConversationTable[1], CurrentUser().id) == "Design Team"
    ensures ConversationName(ConversationTable[3], CurrentUser().id) == "Marketing Department"
  {
    OtherParticipantOfPair(Users[0], Users[2], 1);
    OtherParticipantOfPair(Users[0], Users[3], 1);
  }

  /** In a two-person thread the other participant is the one who is not the viewer. */
  lemma OtherParticipantOfPair(viewer: UserWithStatus, other: UserWithStatus, userId: int)
    requires viewer.id == userId && other.id != userId
    ensures OtherParticipant([viewer, other], userId) == Some(other)
  {
    var r := OtherParticipant([viewer, other], userId);
    var k :| 0 <= k < 2 && [viewer, other][k] == r.value && r.value.id != userId
      && forall j :: 0 <= j < k ==> [viewer, other][j].id == userId;
    assert k == 1;
  }

  /** Conversation ids are pairwise distinct. */
  lemma ConversationIdsDistinct()
    ensures forall i, j :: 0 <= i < j < |ConversationTable| ==> ConversationTable[i].id != ConversationTable[j].id
  {
  }

  /** Every direct conversation has exactly two participants, the viewer among them. */
  lemma DirectConversationsArePairs()
    ensures forall i :: 0 <= i < |ConversationTable| && ConversationTable[i].kind == Direct ==>
      |ConversationTable[i].participants| == 2
      && ConversationTable[i].participants[0] == CurrentUser()
      && ConversationTable[i].participants[1].id != CurrentUser().id
  {
  }

  /** The viewer takes part in every conversation of the table. */
  lemma ViewerInEveryConversation()
    ensures forall i :: 0 <= i < |ConversationTable| ==> CurrentUser() in ConversationTable[i].participants
  {
    forall i | 0 <= i < |ConversationTable|
      ensures CurrentUser() in ConversationTable[i].participants
    {
      assert ConversationTable[i].participants[0] == CurrentUser();
    }
  }
}
