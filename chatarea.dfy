/**
 * The state logic of the chat area: the messages it shows, the input box,
 * the typing indicator, sending a message, grouping messages by day and
 * the rule deciding which messages show their sender's avatar.
 */
module ChatArea {
  import opened Js
  import opened Seqs
  import opened Conversations
  import opened Messages

  // ---------------------------------------------------------------------
  // the id of a new message

  /** `Math.max(0, ...messages.map(m => m.id))`. */
  function MaxId(messages: seq<Message>): (m: int)
    ensures m >= 0
    ensures forall i :: 0 <= i < |messages| ==> messages[i].id <= m
    ensures m == 0 || exists i :: 0 <= i < |messages| && messages[i].id == m
  {
    if messages == [] then 0
    else
      var rest := MaxId(messages[..|messages| - 1]);
      var last := messages[|messages| - 1].id;
      assert forall i :: 0 <= i < |messages| - 1 ==> messages[i] == messages[..|messages| - 1][i];
      if last > rest then last else rest
  }

  /** The id a sent message gets: one more than the largest id, or 1 when there is none. */
  function NextId(messages: seq<Message>): (r: int)
    ensures r >= 1
    ensures forall i :: 0 <= i < |messages| ==> messages[i].id < r
    ensures r == 1 || exists i :: 0 <= i < |messages| && messages[i].id == r - 1
  {
    MaxId(messages) + 1
  }

  /**
   * The message `handleSendMessage` builds, sent by `sender` (the chat area
   * passes its current user); the time label is a parameter.
   */
  function Outgoing(messages: seq<Message>, conversationId: int, sender: UserWithStatus, content: string, timestamp: string): (m: Message)
    ensures m.id == NextId(messages) && m.conversationId == conversationId
    ensures m.sender == sender && m.content == content
    ensures m.timestamp == timestamp && m.sentDate == "Today" && m.media.None?
  {
    Message(NextId(messages), conversationId, sender, content, timestamp, "Today", None)
  }

  /** Appending the message that sending builds keeps the ids of the list distinct. */
  lemma SendKeepsIdsDistinct(messages: seq<Message>, conversationId: int, sender: UserWithStatus, content: string, timestamp: string)
    requires Distinct(Ids(messages))
    ensures Distinct(Ids(messages + [Outgoing(messages, conversationId, sender, content, timestamp)]))
  {
    var s := messages + [Outgoing(messages, conversationId, sender, content, timestamp)];
    forall i, j | 0 <= i < j < |s|
      ensures Ids(s)[i] != Ids(s)[j]
    {
      if j < |messages| {
        assert Ids(s)[i] == Ids(messages)[i] && Ids(s)[j] == Ids(messages)[j];
      } else {
        assert s[i] == messages[i];
      }
    }
  }

  /** Appending the message that sending builds keeps the ids of the list increasing. */
  lemma SendKeepsIdsIncreasing(messages: seq<Message>, conversationId: int, sender: UserWithStatus, content: string, timestamp: string)
    requires StepIncreasing(Ids(messages))
    ensures StepIncreasing(Ids(messages + [Outgoing(messages, conversationId, sender, content, timestamp)]))
  {
    var s := messages + [Outgoing(messages, conversationId, sender, content, timestamp)];
    forall i | 0 <= i < |s| - 1
      ensures Ids(s)[i] < Ids(s)[i + 1]
    {
      assert s[i] == messages[i];
      if i + 1 < |messages| {
        assert s[i + 1] == messages[i + 1];
        assert Ids(messages)[i] < Ids(messages)[i + 1];
      }
    }
  }

  // ---------------------------------------------------------------------
  // grouping by day

  /** The test `message.sentDate === date`. */
  function OnDate(date: string): Message -> bool {
    (m: Message) => m.sentDate == date
  }

  /** No message of the list carries the date, so none is grouped under it. */
  lemma NoMessagesOnDate(messages: seq<Message>, date: string)
    requires date !in SentDates(messages)
    ensures Filter(messages, OnDate(date)) == []
  {
    FilterMembers(messages, OnDate(date));
    assert forall k :: 0 <= k < |messages| ==> SentDates(messages)[k] == messages[k].sentDate;
  }

  /**
   * `messagesByDate`: a reduce that creates an empty list for a day label
   * the first time it sees it and pushes every message onto its day's list.
   * The keys are exactly the day labels of the messages, and each list holds
   * the messages of that day in their original order.
   */
  method GroupByDate(messages: seq<Message>) returns (groups: map<string, seq<Message>>)
    ensures forall d :: d in groups ==> d in SentDates(messages)
    ensures forall d :: d in SentDates(messages) ==> d in groups
    ensures forall d :: d in groups ==> groups[d] == Filter(messages, OnDate(d))
  {
    groups := map[];
    for i := 0 to |messages|
      invariant forall d :: d in groups ==> d in SentDates(messages[..i])
      invariant forall d :: d in SentDates(messages[..i]) ==> d in groups
      invariant forall d :: d in groups ==> groups[d] == Filter(messages[..i], OnDate(d))
    {
      var m := messages[i];
      ghost var prefix := messages[..i];
      assert messages[..i + 1] == prefix + [m];
      assert SentDates(prefix + [m]) == SentDates(prefix) + [m.sentDate];
      if m.sentDate !in groups {
        NoMessagesOnDate(prefix, m.sentDate);
        groups := groups[m.sentDate := []];
      }
      GroupsAfterPush(groups, prefix, m);
      groups := groups[m.sentDate := groups[m.sentDate] + [m]];
    }
    assert messages[..|messages|] == messages;
  }

  /** Pushing a message onto its day's group keeps every group equal to the filter of the longer list. */
  lemma GroupsAfterPush(groups: map<string, seq<Message>>, prefix: seq<Message>, m: Message)
    requires m.sentDate in groups
    requires forall d :: d in groups ==> groups[d] == Filter(prefix, OnDate(d))
    ensures var groups' := groups[m.sentDate := groups[m.sentDate] + [m]];
      forall d :: d in groups' ==> groups'[d] == Filter(prefix + [m], OnDate(d))
  {
    forall d | d in groups
      ensures Filter(prefix + [m], OnDate(d)) == Filter(prefix, OnDate(d)) + (if d == m.sentDate then [m] else [])
    {
      FilterAppend(prefix, m, OnDate(d));
    }
  }

  /**
   * What the chat area renders from: the day labels in first-occurrence
   * order, each with its group. Every label has a group and every group a
   * label.
   */
  method DatesAndGroups(messages: seq<Message>) returns (dates: seq<string>, groups: map<string, seq<Message>>)
    ensures dates == Dedup(SentDates(messages))
    ensures forall d :: d in dates ==> d in groups
    ensures forall d :: d in groups ==> d in dates
    ensures forall d :: d in groups ==> groups[d] == Filter(messages, OnDate(d))
  {
    groups := GroupByDate(messages);
    dates := UniqueMessageDates(messages);
  }

  /** The combined size of the groups of the given day labels. */
  function GroupSizes(messages: seq<Message>, dates: seq<string>): nat {
    if dates == [] then 0 else |Filter(messages, OnDate(dates[0]))| + GroupSizes(messages, dates[1..])
  }

  lemma {:induction false} GroupSizesOfMoreMessages(messages: seq<Message>, m: Message, dates: seq<string>)
    requires Distinct(dates)
    ensures GroupSizes(messages + [m], dates) == GroupSizes(messages, dates) + (if m.sentDate in dates then 1 else 0)
  {
    if dates != [] {
      FilterAppend(messages, m, OnDate(dates[0]));
      GroupSizesOfMoreMessages(messages, m, dates[1..]);
      assert dates == [dates[0]] + dates[1..];
    }
  }

  lemma {:induction false} GroupSizesOfMoreDates(messages: seq<Message>, dates: seq<string>, d: string)
    ensures GroupSizes(messages, dates + [d]) == GroupSizes(messages, dates) + |Filter(messages, OnDate(d))|
  {
    if dates == [] {
      assert [] + [d] == [d];
    } else {
      assert (dates + [d])[1..] == dates[1..] + [d];
      GroupSizesOfMoreDates(messages, dates[1..], d);
    }
  }

  /** The groups of all day labels together hold every message exactly once: their sizes add up to the count. */
  lemma {:induction false} GroupSizesSum(messages: seq<Message>)
    ensures GroupSizes(messages, Dedup(SentDates(messages))) == |messages|
  {
    if messages != [] {
      var ms, m := messages[..|messages| - 1], messages[|messages| - 1];
      assert messages == ms + [m];
      assert SentDates(messages) == SentDates(ms) + [m.sentDate];
      GroupSizesSum(ms);
      var ds := Dedup(SentDates(ms));
      DedupSnoc(SentDates(ms), m.sentDate);
      DedupDistinct(SentDates(ms));
      GroupSizesOfMoreMessages(ms, m, ds);
      if m.sentDate !in ds {
        GroupSizesOfMoreDates(messages, ds, m.sentDate);
        DedupMembers(SentDates(ms));
        NoMessagesOnDate(ms, m.sentDate);
        FilterAppend(ms, m, OnDate(m.sentDate));
      }
    }
  }

  // ---------------------------------------------------------------------
  // avatars

  /** A message shows its sender's avatar when it starts its group or follows another sender's message. */
  function ShowAvatar(group: seq<Message>, index: nat): (r: bool)
    requires index < |group|
    ensures index == 0 ==> r
    ensures index > 0 ==> (r <==> group[index - 1].sender.id != group[index].sender.id)
  {
    index == 0 || group[index - 1].sender.id != group[index].sender.id
  }

  /** All messages of the group come from one sender. */
  predicate OneSender(group: seq<Message>) {
    forall i, j :: 0 <= i < |group| && 0 <= j < |group| ==> group[i].sender.id == group[j].sender.id
  }

  /** Only the first message of a group shows an avatar exactly when one person sent the whole group. */
  lemma AvatarOnlyFirstIffOneSender(group: seq<Message>)
    ensures (forall i :: 0 < i < |group| ==> !ShowAvatar(group, i)) ==> OneSender(group)
    ensures OneSender(group) ==> forall i :: 0 < i < |group| ==> !ShowAvatar(group, i)
  {
    if forall i :: 0 < i < |group| ==> !ShowAvatar(group, i) {
      forall i | 0 <= i < |group|
        ensures group[i].sender.id == group[0].sender.id
      {
        SameSenderUpTo(group, i);
      }
    }
    if OneSender(group) {
      forall i | 0 < i < |group|
        ensures !ShowAvatar(group, i)
      {
        assert group[i - 1].sender.id == group[i].sender.id;
      }
    }
  }

  lemma {:induction false} SameSenderUpTo(group: seq<Message>, i: nat)
    requires forall k :: 0 < k < |group| ==> !ShowAvatar(group, k)
    requires i < |group|
    ensures group[i].sender.id == group[0].sender.id
  {
    if i > 0 {
      SameSenderUpTo(group, i - 1);
      assert !ShowAvatar(group, i);
    }
  }

  // ---------------------------------------------------------------------
  // the component's state

  /**
   * The state of one mounted chat area. `store` is the message table the
   * queries read (the app mounts it with AllMessages); it never changes.
   */
  class ChatState {
    const store: seq<Message>
    /** `getCurrentUser()`, read once when the component renders. */
    const currentUser: UserWithStatus
    var conversation: Option<Conversation>
    var messages: seq<Message>
    var inputValue: string
    var showTypingIndicator: bool

    /** Mounting with a conversation loads its messages; without one the list stays empty. */
    constructor (table: seq<Message>, c: Option<Conversation>)
      ensures store == table && currentUser == CurrentUser() && conversation == c
      ensures messages == if c.Some? then MessagesOf(table, c.value.id) else []
      ensures OrderedWithinConversations(table) ==> StepIncreasing(Ids(messages))
      ensures inputValue == "" && !showTypingIndicator
    {
      store := table;
      currentUser := CurrentUser();
      conversation := c;
      messages := if c.Some? then MessagesOf(table, c.value.id) else [];
      if c.Some? && OrderedWithinConversations(table) {
        MessagesOfIncreasing(table, c.value.id);
      }
      inputValue := "";
      showTypingIndicator := false;
    }

    /**
     * A new `conversation` prop: the effect reloads the messages of a
     * present conversation and leaves them alone when it is null.
     */
    method ConversationChanged(c: Option<Conversation>)
      modifies this
      ensures conversation == c
      ensures c == old(conversation) ==> messages == old(messages)
      ensures c != old(conversation) && c.Some? ==> messages == MessagesOf(store, c.value.id)
      ensures c.None? ==> messages == old(messages)
      ensures OrderedWithinConversations(store) && StepIncreasing(Ids(old(messages))) ==> StepIncreasing(Ids(messages))
      ensures inputValue == old(inputValue) && showTypingIndicator == old(showTypingIndicator)
    {
      if c != conversation {
        conversation := c;
        if c.Some? {
          messages := MessagesOf(store, c.value.id);
          if OrderedWithinConversations(store) {
            MessagesOfIncreasing(store, c.value.id);
          }
        }
      }
    }

    /** Typing: the input takes the new text, and non-empty text turns the typing indicator off. */
    method SetInput(value: string)
      modifies this
      ensures inputValue == value
      ensures |value| > 0 ==> !showTypingIndicator
      ensures |value| == 0 ==> showTypingIndicator == old(showTypingIndicator)
      ensures conversation == old(conversation) && messages == old(messages)
    {
      inputValue := value;
      if |inputValue| > 0 {
        showTypingIndicator := false;
      }
    }

    /** One of the indicator timers fires; when they fire is not modelled. */
    method TypingTimerFired(show: bool)
      modifies this
      ensures showTypingIndicator == show
      ensures conversation == old(conversation) && messages == old(messages) && inputValue == old(inputValue)
    {
      showTypingIndicator := show;
    }

    /**
     * `handleSendMessage`: with a blank input or no conversation nothing
     * changes; otherwise the outgoing message is appended, earlier messages
     * stay as they were, and the input is cleared.
     */
    method SendMessage(timestamp: string)
      modifies this
      ensures (IsBlank(old(inputValue)) || old(conversation).None?) ==>
        messages == old(messages) && inputValue == old(inputValue)
      ensures !IsBlank(old(inputValue)) && old(conversation).Some? ==>
        && messages == old(messages) + [Outgoing(old(messages), old(conversation).value.id, currentUser, old(inputValue), timestamp)]
        && inputValue == ""
      ensures |messages| == |old(messages)| || |messages| == |old(messages)| + 1
      ensures messages[..|old(messages)|] == old(messages)
      ensures StepIncreasing(Ids(old(messages))) ==> StepIncreasing(Ids(messages))
      ensures conversation == old(conversation) && showTypingIndicator == old(showTypingIndicator)
    {
      if IsBlank(inputValue) || conversation.None? {
        assert messages[..|messages|] == messages;
        return;
      }
      var before := messages;
      var m := Outgoing(before, conversation.value.id, currentUser, inputValue, timestamp);
      assert (before + [m])[..|before|] == before;
      if StepIncreasing(Ids(before)) {
        SendKeepsIdsIncreasing(before, conversation.value.id, currentUser, inputValue, timestamp);
      }
      messages := before + [m];
      inputValue := "";
    }
  }
}
