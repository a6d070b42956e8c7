/**
 * The static message table and the two queries over it: the messages of
 * one conversation, and the distinct day labels of a list of messages.
 */
module Messages {
  import opened Js
  import opened Seqs
  import opened Conversations

  datatype MediaKind = Image | File

  /** An attachment: an image or a file, with optional name and size labels. */
  datatype Media = Media(kind: MediaKind, url: string, fileName: Option<string>, fileSize: Option<string>)

  /** A message carries a snapshot of its sender's user record. */
  datatype Message = Message(
    id: int,
    conversationId: int,
    sender: UserWithStatus,
    content: string,
    timestamp: string,
    sentDate: string,
    media: Option<Media>)

  /**
   * The texts of the table in the order the data file lists them: the
   * content of each message, followed by the url of its image when it has
   * one.
   */
  function MessageText(k: nat): string {
    match k
    case 0 => "Hi team, I've uploaded the new design mockups for the landing page. Could everyone please review and provide feedback by EOD?"
    case 1 => "Here's a preview of the homepage:"
    case 2 => "https://images.unsplash.com/photo-1517292987719-0369a794ec0f?ixlib=rb-4.0.3&ixid=MnwxMjA3fDB8MHxwaG90by1wYWdlfHx8fGVufDB8fHx8&auto=format&fit=crop&w=500&q=80"
    case 3 => "Looks good! I like the color palette. Maybe we could add more contrast to the CTA buttons?"
    case 4 => "I agree with Alex. The overall layout is clean, but the buttons could use more emphasis. Also, what about adding some testimonials in that empty space below the hero section?"
    case 5 => "Hey! Did you get a chance to look at the client presentation I sent over?"
    case 6 => "Yes, it looks fantastic! I really like the approach you took with the market analysis section."
    case 7 => "Thanks! I spent extra time on that part. By the way, here are those files you requested:"
    case 8 => "Hey, are you free this weekend for the conference?"
    case 9 => "Yes, I've already booked my ticket. Are you presenting anything?"
    case 10 => "I'll be doing a short talk on UX design trends. Here's a preview of one of my slides:"
    case 11 => "https://images.unsplash.com/photo-1542744173-05336fcc7ad4?ixlib=rb-4.0.3&ixid=MnwxMjA3fDB8MHxwaG90by1wYWdlfHx8fGVufDB8fHx8&auto=format&fit=crop&w=500&q=80"
    case 12 => "Team, we need to finalize the Q4 marketing strategy by Friday. Any updates?"
    case 13 => "I've completed the social media calendar and budget allocation. Will share the document by end of day."
    case 14 => "The campaign assets are ready for review. Take a look at the main banner:"
    case 15 => "https://images.unsplash.com/photo-1560472355-536de3962603?ixlib=rb-4.0.3&ixid=MnwxMjA3fDB8MHxwaG90by1wYWdlfHx8fGVufDB8fHx8&auto=format&fit=crop&w=500&q=80"
    case 16 => "Hey, I wanted to thank you for your help with the project last week. It really made a difference."
    case 17 => "No problem at all! It was a great learning experience for me too."
    case 18 => "By the way, here's that book I mentioned. It's a great resource for UX design principles."
    case 19 => "I've updated the design based on your feedback:"
    case 20 => "Perfect! This looks much better. The testimonials section is a great addition."
    case 21 => "Agreed! The revised color scheme makes the call-to-action buttons really stand out now."
    case 22 => "Morning! Just checking if you're all set for the client meeting at 2pm?"
    case 23 => "Good morning! Yes, I've prepared all the materials and will be ready to present the analytics section."
    case 24 => "Great! I've sent you the final presentation deck. We should aim to wrap up within 45 minutes."
    case 25 => "I've sent you the files you requested, let me know if you need anything else!"
    case 26 => "What time does your talk start on Saturday?"
    case 27 => "It's scheduled for 11:15 AM in the main hall. Would be great to see you there!"
    case 28 => "The new campaign assets are ready for review"
    case 29 => "https://images.unsplash.com/photo-1533750516457-a7f992034fec?ixlib=rb-4.0.3&ixid=MnwxMjA3fDB8MHxwaG90by1wYWdlfHx8fGVufDB8fHx8&auto=format&fit=crop&w=500&q=80"
    case 30 => "These look great! The colors align perfectly with our brand guidelines."
    case _ => ""
  }

  /**
   * Yesterday's messages exactly as the data file lists them, the k-th
   * text taken from text(k). The table is built from MessageText; the
   * facts about ids, senders and conversations hold whatever the texts are.
   */
  function YesterdayTable(text: nat -> string): seq<Message>
  {
    [
      Message(1, 2, Users[4], text(0), "10:30 AM", "Yesterday", None),
      Message(2, 2, Users[4], text(1), "10:32 AM", "Yesterday", Some(Media(Image, text(2), None, None))),
      Message(3, 2, Users[2], text(3), "10:45 AM", "Yesterday", None),
      Message(4, 2, Users[0], text(4), "11:15 AM", "Yesterday", None),
      Message(7, 1, Users[1], text(5), "11:30 AM", "Yesterday", None),
      Message(8, 1, Users[0], text(6), "12:05 PM", "Yesterday", None),
      Message(9, 1, Users[1], text(7), "12:30 PM", "Yesterday", Some(Media(File, "#", Some("client_data_2023.xlsx"), Some("3.8 MB")))),
      Message(10, 3, Users[2], text(8), "3:15 PM", "Yesterday", None),
      Message(11, 3, Users[0], text(9), "4:20 PM", "Yesterday", None),
      Message(12, 3, Users[2], text(10), "5:00 PM", "Yesterday", Some(Media(Image, text(11), None, None))),
      Message(13, 4, Users[5], text(12), "9:00 AM", "Yesterday", None),
      Message(14, 4, Users[0], text(13), "10:15 AM", "Yesterday", None),
      Message(15, 4, UserWithStatus(3, "thomas_nelson", Some("Thomas Nelson"), None, Offline, "TN", "bg-red-100 text-red-600"), text(14), "2:30 PM", "Yesterday", Some(Media(Image, text(15), None, None))),
      Message(16, 5, Users[3], text(16), "11:30 AM", "Yesterday", None),
      Message(17, 5, Users[0], text(17), "12:45 PM", "Yesterday", None),
      Message(18, 5, Users[3], text(18), "1:30 PM", "Yesterday", Some(Media(File, "#", Some("ux_design_handbook.pdf"), Some("12.3 MB"))))
    ]
  }

  /** Today's messages, their texts taken from text(19) onwards. */
  function TodayTable(text: nat -> string): seq<Message>
  {
    [
      Message(5, 2, Users[4], text(19), "9:05 AM", "Today", Some(Media(File, "#", Some("homepage-redesign-v2.fig"), Some("4.2 MB")))),
      Message(6, 2, Users[3], text(20), "9:47 AM", "Today", None),
      Message(19, 2, Users[1], text(21), "10:15 AM", "Today", None),
      Message(20, 1, Users[1], text(22), "8:30 AM", "Today", None),
      Message(21, 1, Users[0], text(23), "8:45 AM", "Today", None),
      Message(22, 1, Users[1], text(24), "9:00 AM", "Today", None),
      Message(23, 1, Users[1], text(25), "12:42 PM", "Today", Some(Media(File, "#", Some("client_presentation_final.pptx"), Some("5.7 MB")))),
      Message(24, 3, Users[0], text(26), "9:30 AM", "Today", None),
      Message(25, 3, Users[2], text(27), "10:05 AM", "Today", None),
      Message(26, 4, Users[5], text(28), "8:15 AM", "Today", Some(Media(Image, text(29), None, None))),
      Message(27, 4, Users[0], text(30), "9:30 AM", "Today", None)
    ]
  }

  /**
   * The correction of message 15: the data file gives it the user id 3
   * (Alex Johnson's) together with Thomas Nelson's username, name, initials
   * and colour (see AsWrittenSenderIsNoUser); here its sender is Thomas
   * Nelson's user record.
   */
  function CorrectedSender(yesterday: seq<Message>): seq<Message>
    requires |yesterday| > 12
  {
    yesterday[12 := yesterday[12].(sender := Users[3])]
  }

  /** `[...yesterdayMessages, ...todayMessages]`, as the data file writes them. */
  function Table(text: nat -> string): seq<Message>
  {
    YesterdayTable(text) + TodayTable(text)
  }

  /** The same table with message 15's sender corrected. */
  function CorrectedTable(text: nat -> string): seq<Message>
  {
    CorrectedSender(YesterdayTable(text)) + TodayTable(text)
  }

  /** `messages`: the table the queries read, as written. */
  const AllMessages: seq<Message> := Table(MessageText)

  // ---------------------------------------------------------------------
  // getMessagesByConversation

  /** The test `message => message.conversationId === conversationId`. */
  function InConversation(conversationId: int): Message -> bool {
    (m: Message) => m.conversationId == conversationId
  }

  /**
   * `table.filter(message => message.conversationId === conversationId)`:
   * exactly the messages of that conversation, each as often as in the
   * table, in table order.
   */
  function MessagesOf(table: seq<Message>, conversationId: int): (r: seq<Message>)
    ensures forall m :: m in r ==> m in table && m.conversationId == conversationId
    ensures forall m :: m in table && m.conversationId == conversationId ==> m in r
    ensures IsSubsequence(r, table) && |r| <= |table|
  {
    var r := Filter(table, InConversation(conversationId));
    FilterMembers(table, InConversation(conversationId));
    FilterIsSubsequence(table, InConversation(conversationId));
    r
  }

  /** Every copy of a message of the conversation is kept, and no copy of any other. */
  lemma MessagesOfMultiplicity(table: seq<Message>, conversationId: int)
    ensures forall m :: multiset(MessagesOf(table, conversationId))[m]
                        == if m.conversationId == conversationId then multiset(table)[m] else 0
  {
    forall m {
      FilterMultiplicity(table, InConversation(conversationId), m);
    }
  }

  /**
   * `getMessagesByConversation(conversationId)` over the static table:
   * that conversation's messages, in increasing id order.
   */
  function GetMessagesByConversation(conversationId: int): (r: seq<Message>)
    ensures StepIncreasing(Ids(r))
  {
    TableOrderedWithinConversations(MessageText);
    MessagesOfIncreasing(AllMessages, conversationId);
    MessagesOf(AllMessages, conversationId)
  }

  // ---------------------------------------------------------------------
  // getUniqueMessageDates

  /** The day label of every message, in order. */
  function SentDates(messages: seq<Message>): (r: seq<string>)
    ensures |r| == |messages|
    ensures forall i :: 0 <= i < |messages| ==> r[i] == messages[i].sentDate
  {
    seq(|messages|, i requires 0 <= i < |messages| => messages[i].sentDate)
  }

  /**
   * `getUniqueMessageDates`: adds every day label to a Set, in message
   * order, and returns the Set's contents in insertion order. The Set is
   * modelled by the list of values added so far.
   */
  method UniqueMessageDates(messages: seq<Message>) returns (dates: seq<string>)
    ensures dates == Dedup(SentDates(messages))
    ensures Distinct(dates)
    ensures forall i :: 0 <= i < |messages| ==> messages[i].sentDate in dates
    ensures forall d :: d in dates ==> exists i :: 0 <= i < |messages| && messages[i].sentDate == d
    ensures messages == [] ==> dates == []
  {
    var uniqueDates: seq<string> := [];
    for i := 0 to |messages|
      invariant uniqueDates == Dedup(SentDates(messages[..i]))
    {
      assert SentDates(messages[..i + 1]) == SentDates(messages[..i]) + [messages[i].sentDate];
      DedupSnoc(SentDates(messages[..i]), messages[i].sentDate);
      if messages[i].sentDate !in uniqueDates {
        uniqueDates := uniqueDates + [messages[i].sentDate];
      }
    }
    assert messages[..|messages|] == messages;
    dates := uniqueDates;
    DedupDistinct(SentDates(messages));
    DedupMembers(SentDates(messages));
    forall d | d in dates
      ensures exists i :: 0 <= i < |messages| && messages[i].sentDate == d
    {
      var i :| 0 <= i < |SentDates(messages)| && SentDates(messages)[i] == d;
    }
  }

  // ---------------------------------------------------------------------
  // invariants of the static table

  /** The ids of a message list, in order. */
  function Ids(messages: seq<Message>): (r: seq<int>)
    ensures |r| == |messages|
    ensures forall i :: 0 <= i < |messages| ==> r[i] == messages[i].id
  {
    seq(|messages|, i requires 0 <= i < |messages| => messages[i].id)
  }

  /** Each element is smaller than the next one. */
  predicate StepIncreasing(s: seq<int>) {
    forall i :: 0 <= i < |s| - 1 ==> s[i] < s[i + 1]
  }

  /** Increasing from each element to the next means increasing throughout. */
  lemma {:induction false} StepIncreasingIsIncreasing(s: seq<int>, i: nat, j: nat)
    requires StepIncreasing(s) && i < j < |s|
    ensures s[i] < s[j]
    decreases j - i
  {
    if i + 1 < j {
      StepIncreasingIsIncreasing(s, i + 1, j);
    }
  }

  /** Yesterday's ids increase, and are 1-4 and 7-18. */
  lemma YesterdayIdLayout(text: nat -> string)
    ensures |YesterdayTable(text)| == 16
    ensures StepIncreasing(Ids(YesterdayTable(text)))
    ensures Ids(YesterdayTable(text)) == [1, 2, 3, 4, 7, 8, 9, 10, 11, 12, 13, 14, 15, 16, 17, 18]
    ensures forall i :: 0 <= i < 16 ==> var id := YesterdayTable(text)[i].id; id <= 4 || 7 <= id <= 18
  {
    assert Ids(YesterdayTable(text)) == [1, 2, 3, 4, 7, 8, 9, 10, 11, 12, 13, 14, 15, 16, 17, 18];
  }

  /** Today's ids increase, and are 5, 6 and 19-27. */
  lemma TodayIdLayout(text: nat -> string)
    ensures |TodayTable(text)| == 11
    ensures StepIncreasing(Ids(TodayTable(text)))
    ensures Ids(TodayTable(text)) == [5, 6, 19, 20, 21, 22, 23, 24, 25, 26, 27]
    ensures forall i :: 0 <= i < 11 ==> var id := TodayTable(text)[i].id; 5 <= id <= 6 || 19 <= id
  {
    assert Ids(TodayTable(text)) == [5, 6, 19, 20, 21, 22, 23, 24, 25, 26, 27];
  }

  /** Message ids of the combined table are pairwise distinct, whatever the texts. */
  lemma MessageIdsDistinct(text: nat -> string)
    ensures forall i, j :: 0 <= i < j < |Table(text)| ==> Table(text)[i].id != Table(text)[j].id
  {
    YesterdayIdLayout(text);
    TodayIdLayout(text);
    var y, t := YesterdayTable(text), TodayTable(text);
    var all := Table(text);
    assert all == y + t;
    forall i, j | 0 <= i < j < |all|
      ensures all[i].id != all[j].id
    {
      if j < |y| {
        StepIncreasingIsIncreasing(Ids(y), i, j);
      } else if |y| <= i {
        StepIncreasingIsIncreasing(Ids(t), i - |y|, j - |y|);
      } else {
        assert all[i] == y[i] && all[j] == t[j - |y|];
      }
    }
  }

  /** Within each conversation, a message listed later has a larger id. */
  predicate OrderedWithinConversations(table: seq<Message>) {
    forall i, j :: 0 <= i < j < |table| && table[i].conversationId == table[j].conversationId ==> table[i].id < table[j].id
  }

  /** The messages of one conversation of such a table come in increasing id order. */
  lemma {:induction false} MessagesOfIncreasing(table: seq<Message>, conversationId: int)
    requires OrderedWithinConversations(table)
    ensures StepIncreasing(Ids(MessagesOf(table, conversationId)))
  {
    if table != [] {
      var rest := table[1..];
      assert OrderedWithinConversations(rest) by {
        forall i, j | 0 <= i < j < |rest| && rest[i].conversationId == rest[j].conversationId
          ensures rest[i].id < rest[j].id
        {
          assert rest[i] == table[i + 1] && rest[j] == table[j + 1];
        }
      }
      MessagesOfIncreasing(rest, conversationId);
      var r' := MessagesOf(rest, conversationId);
      if table[0].conversationId == conversationId {
        assert MessagesOf(table, conversationId) == [table[0]] + r';
        if r' != [] {
          assert r'[0] in r';
          var k :| 0 <= k < |rest| && rest[k] == r'[0];
          assert table[k + 1] == r'[0];
        }
        IdsCons(table[0], r');
      } else {
        assert MessagesOf(table, conversationId) == r';
      }
    }
  }

  /** Putting a message with a smaller id in front keeps the ids increasing. */
  lemma IdsCons(m: Message, s: seq<Message>)
    requires StepIncreasing(Ids(s))
    requires s != [] ==> m.id < s[0].id
    ensures StepIncreasing(Ids([m] + s))
  {
    var t := [m] + s;
    forall i | 0 <= i < |t| - 1
      ensures Ids(t)[i] < Ids(t)[i + 1]
    {
      if i > 0 {
        assert t[i] == s[i - 1] && t[i + 1] == s[i];
        assert Ids(s)[i - 1] < Ids(s)[i];
      }
    }
  }

  /** In the data file the messages of conversation 2 come first: ids 1-4 yesterday, then ids 5 and 6 today. */
  lemma ConversationTwoLayout(text: nat -> string)
    ensures forall i :: 0 <= i < 16 && YesterdayTable(text)[i].conversationId == 2 ==> YesterdayTable(text)[i].id <= 4
    ensures forall i :: 0 <= i < 11 && TodayTable(text)[i].id <= 6 ==> TodayTable(text)[i].conversationId == 2
  {
  }

  /** As written, the table lists every conversation's messages in increasing id order, whatever the texts. */
  lemma TableOrderedWithinConversations(text: nat -> string)
    ensures OrderedWithinConversations(Table(text))
  {
    YesterdayIdLayout(text);
    TodayIdLayout(text);
    ConversationTwoLayout(text);
    var y, t := YesterdayTable(text), TodayTable(text);
    var all := Table(text);
    assert all == y + t;
    forall i, j | 0 <= i < j < |all| && all[i].conversationId == all[j].conversationId
      ensures all[i].id < all[j].id
    {
      if j < |y| {
        StepIncreasingIsIncreasing(Ids(y), i, j);
      } else if |y| <= i {
        StepIncreasingIsIncreasing(Ids(t), i - |y|, j - |y|);
      } else {
        assert all[i] == y[i] && all[j] == t[j - |y|];
      }
    }
  }

  /** Each conversation's messages, as `getMessagesByConversation` returns them, have increasing ids. */
  lemma ConversationIdsIncrease(text: nat -> string)
    ensures forall c :: StepIncreasing(Ids(MessagesOf(Table(text), c)))
  {
    TableOrderedWithinConversations(text);
    forall c {
      MessagesOfIncreasing(Table(text), c);
    }
  }

  /** Every message belongs to a conversation of the table, whatever the texts. */
  lemma MessagesReferToConversations(text: nat -> string)
    ensures forall i :: 0 <= i < |Table(text)| ==>
      var cid := Table(text)[i].conversationId;
      1 <= cid <= |ConversationTable| && ConversationTable[cid - 1].id == cid
  {
  }

  /**
   * As written, message 15 names user id 3 (Alex Johnson's id) together
   * with Thomas Nelson's username, name, initials and colour, a record that
   * matches no user of the table.
   */
  lemma AsWrittenSenderIsNoUser(text: nat -> string)
    ensures YesterdayTable(text)[12].id == 15
    ensures YesterdayTable(text)[12].sender.id == 3 && Users[2].id == 3
    ensures YesterdayTable(text)[12].sender == Users[3].(id := 3) && Users[3].id == 4
    ensures YesterdayTable(text)[12].sender !in Users
  {
  }

  /** With the sender corrected, every message's sender is a user of the table, whatever the texts. */
  lemma SendersAreUsers(text: nat -> string)
    ensures forall i :: 0 <= i < |CorrectedTable(text)| ==> CorrectedTable(text)[i].sender in Users
  {
  }
}
