# Flow Chat: a model of the chat UI's state logic

Flow Chat is a single-page chat prototype written in React and TypeScript.
Behind its rendering sits a small amount of logic, and this project models it:

- a static store of users, conversations and messages, with queries over it:
  - the messages of one conversation;
  - the distinct day labels of a message list;
  - the display name and participant-count label of a conversation;
- the chat area's state:
  - the loaded messages, the input box and the typing indicator;
  - sending a message with a fresh id;
  - grouping messages by day;
  - the rule deciding which message shows its sender's avatar;
- the case-insensitive searches of the conversation, saved-item, community and call lists;
- the toggling type filter of the saved items;
- the selected community and its unread badge;
- the page-level navigation state: the active tab, the selected conversation,
  the mobile sidebar and the scroll lock on the page body.

The model is Dafny 4. It has one module per source file, plus two modules of
shared primitives:

- `Js` holds JavaScript semantics the code relies on:
  - null/undefined as `None`;
  - truthiness;
  - `a || b`;
  - `toLowerCase`;
  - `includes`;
  - `trim`, with the WhiteSpace and LineTerminator sets of sections 12.2 and 12.3 of ECMA-262;
  - `${n}` for a count.
- `Seqs` holds `filter`, `find` and the de-duplication that `Array.from(new Set(…))` performs.

The form of each module follows its source:

- Pure code (filters, lookups, labels) becomes functions with lemmas.
- `getUniqueMessageDates` and the `messagesByDate` reduce are loops that
  update a collection in place. They become methods with loop invariants, proved
  against the functions `Dedup` and `Filter`.
- Component state updated by handlers becomes a class with `modifies` clauses:
  - the chat area: `ChatArea.ChatState`;
  - the saved-items filter: `SavedItems.SavedItemsState`;
  - the community selection: `Communities.CommunitiesState`;
  - the page: `Home.HomeState`, whose handlers keep `Valid()`, "page scroll is locked exactly while the sidebar is open".

The texts of the message table come from the function `MessageText`, which
lists them in data-file order. The two day tables take the texts as a
parameter, and the facts about ids, senders and conversation references are
proved whatever the texts are. The queries read `AllMessages ==
Table(MessageText)`, the table exactly as the data file writes it. The
correction of message 15's sender (see "## Findings") exists only in
`CorrectedTable`, and no query reads it.

## Model

| member | source | states |
|---|---|---|
| Js.OrElse | src/data/conversations.ts:156 | `a \|\| b` on strings is `a` when it is non-null and non-empty, otherwise `b` |
| Js.Lower | src/layout/ConversationList.tsx:36-38 | `toLowerCase` keeps the length and lowercases every character (ASCII letters) |
| Js.LowerIdempotent | src/layout/ConversationList.tsx:36-38 | lowercasing twice is lowercasing once |
| Js.LowerPreservesIncludes | src/layout/ConversationList.tsx:36-38 | if q occurs in s, then lower(q) occurs in lower(s) |
| Js.IncludesTransitive | src/layout/ConversationList.tsx:38 | a substring of a substring is a substring |
| Js.MatchesQueryNarrowing | src/layout/ConversationList.tsx:35-39 | a field matching a longer query q' also matches every q occurring in q' |
| Js.MatchesQueryCaseInsensitive | src/layout/ConversationList.tsx:35-39 | lowercasing the field or the query first does not change the match |
| Js.TrimStart | src/layout/ChatArea.tsx:74 | the result is a suffix of the input, everything removed before it is white space, and it does not start with white space |
| Js.TrimEnd | src/layout/ChatArea.tsx:74 | the result is a prefix of the input, everything removed after it is white space, and it does not end with white space |
| Js.Trim | src/layout/ChatArea.tsx:74 | `s.trim()` is the slice of s between a white-space prefix and a white-space suffix, and neither starts nor ends with white space |
| Js.IsBlank | src/layout/ChatArea.tsx:74 | `!s.trim()` holds exactly when every character of s is white space, the empty string included |
| Js.MatchesQuery | src/layout/ConversationList.tsx:35-39 | the case-insensitive `includes` test: a match needs a query no longer than the field, and a field matches a query equal to it up to case |
| Js.TrimEmpty | src/layout/ChatArea.tsx:74 | `s.trim()` is empty exactly when every character of s is white space |
| Js.DecimalString | src/data/conversations.ts:161 | `${n}` is a non-empty string of digits; it starts with '0' only when n is 0, and then it is exactly "0" |
| Js.DecimalRoundTrip | src/data/conversations.ts:161 | reading the numeral of n back gives n |
| Seqs.FilterIsSubsequence | src/data/messages.ts:516 | `filter` keeps elements in their original order and never lengthens the list |
| Seqs.FilterMembers | src/data/messages.ts:516 | an element is in the result exactly when it is in the input and passes the test |
| Seqs.FilterMultiplicity | src/data/messages.ts:516 | every copy of a passing element is kept, and no copy of a failing one |
| Seqs.FilterKeepsAll | src/layout/ConversationList.tsx:35-39 | a test every element passes returns the input unchanged |
| Seqs.FilterNarrowing | src/layout/SavedItemsList.tsx:146-156 | a stronger test keeps a subsequence of what a weaker test keeps |
| Seqs.FilterAppend | src/layout/ChatArea.tsx:116 | filtering a list with one more element adds it at the end exactly when it passes |
| Seqs.Find | src/data/conversations.ts:155 | `find` gives a value exactly when some element passes, and then gives the first one that passes |
| Seqs.DedupMembers | src/data/messages.ts:519-523 | the de-duplicated list has exactly the elements of its input |
| Seqs.DedupDistinct | src/data/messages.ts:519-523 | the de-duplicated list holds no value twice |
| Seqs.DedupFirstOccurrenceOrder | src/data/messages.ts:520-522 | values come out in the order of their first occurrence, which is `Set` insertion order |
| Seqs.DedupSnoc | src/data/messages.ts:521 | adding a value adds it at the end unless it was already seen |
| Conversations.CurrentUser | src/data/conversations.ts:164-166 | the current user is the table's user with id 1, "Current User" |
| Conversations.OtherParticipant | src/data/conversations.ts:155 | no participant exactly when all have the viewer's id; otherwise the first one with a different id |
| Conversations.ConversationName | src/data/conversations.ts:149-157 | a non-empty name is returned unchanged; otherwise the other participant's non-empty full name, else "Unknown"; never empty |
| Conversations.ParticipantCountLabel | src/data/conversations.ts:159-162 | the label is the numeral of the count (it reads back as the count), a space, then "participant" for 1 and "participants" for every other count |
| Conversations.ParticipantCount | src/data/conversations.ts:159-162 | `getParticipantCount` gives "1 participant" for one participant, and ends in "s" exactly when the count is not 1 |
| Conversations.ParticipantCountOne | src/data/conversations.ts:159-162 | one participant gives "1 participant" |
| Conversations.ParticipantCountZero | src/data/conversations.ts:159-162 | no participants give "0 participants" |
| Conversations.DirectConversationNames | src/data/conversations.ts:86-157 | the table's direct threads are named after the other person, the groups by their names |
| Conversations.OtherParticipantOfPair | src/data/conversations.ts:155 | in a thread of the viewer and one other person, the other participant is that person |
| Conversations.ConversationIdsDistinct | src/data/conversations.ts:86-147 | conversation ids are pairwise distinct |
| Conversations.DirectConversationsArePairs | src/data/conversations.ts:86-147 | every direct conversation has two participants: the current user first, then someone else |
| Conversations.ViewerInEveryConversation | src/data/conversations.ts:86-147 | the current user takes part in every conversation |
| Messages.MessagesOf | src/data/messages.ts:515-517 | exactly the messages of the conversation, in table order, as a subsequence of the table and no longer than it |
| Messages.GetMessagesByConversation | src/data/messages.ts:515-517 | the messages of one conversation of the table as written (the contract of MessagesOf), and they come in increasing id order |
| Messages.MessagesOfMultiplicity | src/data/messages.ts:515-517 | every copy of a message of the conversation is kept, and no copy of any other |
| Messages.UniqueMessageDates | src/data/messages.ts:519-523 | the Set-filling loop returns `Dedup` of the day labels: no duplicates, every label present, nothing else, first-occurrence order, empty for no messages |
| Messages.StepIncreasingIsIncreasing | src/data/messages.ts:18-513 | ids that increase from each message to the next increase throughout |
| Messages.YesterdayIdLayout | src/data/messages.ts:18-308 | yesterday's ids increase and are 1-4 and 7-18 |
| Messages.TodayIdLayout | src/data/messages.ts:310-510 | today's ids increase and are 5, 6 and 19-27 |
| Messages.MessageIdsDistinct | src/data/messages.ts:18-513 | message ids of the combined table are pairwise distinct |
| Messages.MessagesOfIncreasing | src/data/messages.ts:515-517 | in a table where each conversation's later messages have larger ids, the messages of any conversation have increasing ids |
| Messages.ConversationTwoLayout | src/data/messages.ts:18-349 | conversation 2's messages yesterday have ids up to 4, and today's messages with ids up to 6 belong to conversation 2 |
| Messages.TableOrderedWithinConversations | src/data/messages.ts:18-513 | as written, within each conversation a message listed later has a larger id |
| Messages.ConversationIdsIncrease | src/data/messages.ts:513-517 | the messages of every conversation, as queried, come in increasing id order |
| Messages.MessagesReferToConversations | src/data/messages.ts:18-513 | every message names a conversation of the conversation table |
| Messages.AsWrittenSenderIsNoUser | src/data/messages.ts:232-250 | as written, message 15's sender has id 3 with Thomas Nelson's other fields, which is no user of the table |
| Messages.SendersAreUsers | src/data/messages.ts:18-513 | in CorrectedTable, where that sender is corrected, every sender is a user of the table |
| ChatArea.MaxId | src/layout/ChatArea.tsx:77 | `Math.max(0, ...ids)` is at least 0, at least every id, and is 0 or one of the ids |
| ChatArea.NextId | src/layout/ChatArea.tsx:77 | the new id is at least 1, greater than every existing id, and 1 or one more than an existing id |
| ChatArea.Outgoing | src/layout/ChatArea.tsx:76-83 | the new message has the next id, the conversation's id, the given sender, the untrimmed input, "Today" and no media |
| ChatArea.SendKeepsIdsDistinct | src/layout/ChatArea.tsx:77-85 | appending the outgoing message to a list with distinct ids keeps the ids distinct |
| ChatArea.SendKeepsIdsIncreasing | src/layout/ChatArea.tsx:77-85 | appending the outgoing message to a list in increasing id order keeps it in increasing id order |
| ChatArea.NoMessagesOnDate | src/layout/ChatArea.tsx:113-115 | a day label no message carries has an empty group |
| ChatArea.GroupByDate | src/layout/ChatArea.tsx:111-120 | the reduce's keys are exactly the messages' day labels, and each group is the messages of that day in order |
| ChatArea.GroupsAfterPush | src/layout/ChatArea.tsx:116 | pushing a message onto its day's group keeps every group equal to the filter of the longer list |
| ChatArea.DatesAndGroups | src/layout/ChatArea.tsx:111-123 | the group keys and the unique day labels are the same set, and the labels are in first-occurrence order |
| ChatArea.GroupSizesOfMoreMessages | src/layout/ChatArea.tsx:116 | one more message adds one to the group sizes of distinct labels exactly when its label is among them |
| ChatArea.GroupSizesOfMoreDates | src/layout/ChatArea.tsx:111-120 | one more label adds the size of its group |
| ChatArea.GroupSizesSum | src/layout/ChatArea.tsx:111-123 | the sizes of the groups of all labels add up to the number of messages |
| ChatArea.ShowAvatar | src/layout/ChatArea.tsx:309-312 | the first message of a group shows the avatar; any later one exactly when the previous message has another sender |
| ChatArea.AvatarOnlyFirstIffOneSender | src/layout/ChatArea.tsx:309-312 | only the first avatar is shown exactly when one person sent the whole group |
| ChatArea.SameSenderUpTo | src/layout/ChatArea.tsx:309-312 | with no avatar after the first, every message has the first message's sender |
| ChatArea.ChatState.constructor | src/layout/ChatArea.tsx:29-59 | mounting loads the conversation's messages, or none without a conversation, in increasing id order when the table lists each conversation in that order; the current user is user 1; empty input, no typing indicator |
| ChatArea.ChatState.ConversationChanged | src/layout/ChatArea.tsx:39-59 | a changed, present conversation reloads its messages; null keeps them; increasing id order is kept |
| ChatArea.ChatState.SetInput | src/layout/ChatArea.tsx:62-66 | non-empty input turns the typing indicator off; empty input leaves it |
| ChatArea.ChatState.TypingTimerFired | src/layout/ChatArea.tsx:46-52 | a timer sets the indicator and nothing else |
| ChatArea.ChatState.SendMessage | src/layout/ChatArea.tsx:73-88 | blank input or no conversation changes nothing; otherwise the outgoing message from the current user is appended, earlier messages are kept, increasing id order is kept, and the input is cleared |
| SavedItems.FilteredItems | src/layout/SavedItemsList.tsx:146-156 | an item is kept exactly when its title or description matches and the filter is null or its type; order is kept |
| SavedItems.EmptySearchKeepsAll | src/layout/SavedItemsList.tsx:146-156 | empty search and no filter keep every item in order |
| SavedItems.TypeFilterNarrows | src/layout/SavedItemsList.tsx:153-155 | a type filter gives a subsequence of, and no more results than, no filter |
| SavedItems.SearchNarrows | src/layout/SavedItemsList.tsx:148-150 | a longer query containing q gives a subsequence of q's results |
| SavedItems.Toggle | src/layout/SavedItemsList.tsx:213-247 | a type button clears the filter when its type is selected, and selects its type otherwise |
| SavedItems.ToggleTwice | src/layout/SavedItemsList.tsx:213-247 | pressing a button twice keeps its type if it was selected and otherwise leaves no filter; from null it returns to null |
| SavedItems.SavedItemsState.constructor | src/layout/SavedItemsList.tsx:22-23 | the list starts with an empty search and no type filter |
| SavedItems.SavedItemsState.Visible | src/layout/SavedItemsList.tsx:146-156 | an item is rendered exactly when it is a saved item that matches the search and the filter, in list order |
| SavedItems.SavedItemsState.SetSearchQuery | src/layout/SavedItemsList.tsx:183 | typing sets the query and keeps the filter |
| SavedItems.SavedItemsState.ClickAll | src/layout/SavedItemsList.tsx:205 | "All" sets the filter to null |
| SavedItems.SavedItemsState.ClickType | src/layout/SavedItemsList.tsx:213-247 | a type button toggles the filter, and the list then shows no more items than with no filter |
| ConversationList.FilteredConversations | src/layout/ConversationList.tsx:35-39 | a conversation is kept exactly when its display name matches the query; order is kept |
| ConversationList.EmptySearchKeepsAll | src/layout/ConversationList.tsx:35-39 | an empty query keeps every conversation in order |
| ConversationList.SearchNarrows | src/layout/ConversationList.tsx:35-39 | if q occurs in q', the results for q' are a subsequence, and so a subset, of those for q |
| ConversationList.OtherParticipantOf | src/layout/ConversationList.tsx:47-54 | none for a group; for a direct thread the first participant who is not the viewer |
| ConversationList.Prefix2 | src/layout/ConversationList.tsx:65 | `substring(0, 2)` is the first two characters, or the whole string when shorter |
| ConversationList.UserField | src/layout/ConversationList.tsx:60-61 | an optional user's field, or "" without a user |
| ConversationList.AvatarOf | src/layout/ConversationList.tsx:56-69 | a direct thread shows the other user's initials and colour, or "" for each without one; a group shows the first two characters of a non-empty name or "GR", in purple |
| ConversationList.DirectAvatarAndNameAgree | src/layout/ConversationList.tsx:56-69 | in an unnamed thread of the viewer and one other person, avatar and name are that person's |
| Communities.FilteredCommunities | src/layout/CommunitiesList.tsx:202-206 | a community is kept exactly when its name or description matches; order is kept |
| Communities.EmptySearchKeepsAll | src/layout/CommunitiesList.tsx:154-206 | an empty query keeps every community in order |
| Communities.SearchNarrows | src/layout/CommunitiesList.tsx:202-206 | if q occurs in q', the results for q' are a subsequence of, and no more than, those for q |
| Communities.ActiveCommunity | src/layout/CommunitiesList.tsx:208-210 | nothing for a null or 0 id; otherwise the first community with that id, or nothing when none has it |
| Communities.CommunityIdsDistinct | src/layout/CommunitiesList.tsx:154-200 | community ids are distinct and non-zero |
| Communities.SelectingFindsCommunity | src/layout/CommunitiesList.tsx:208-210 | looking up any listed community's id gives that community |
| Communities.BadgeSlotAsWritten | src/layout/CommunitiesList.tsx:305-312 | as written, the slot is empty for undefined, the text "0" for 0, a badge for a positive count and empty for a negative one |
| Communities.StrayZeroInTable | src/layout/CommunitiesList.tsx:154-200 | "Developer Network" and "Book Club" have count 0, and as written their rows show "0" |
| Communities.BadgeSlotOf | src/layout/CommunitiesList.tsx:305-312 | the badge is shown exactly when the count is defined and positive, carries the count, and no text is ever shown |
| Communities.BadgeSlotsAgreeExceptZero | src/layout/CommunitiesList.tsx:305-312 | the written and corrected slots agree on every count except 0 |
| Communities.CommunitiesState.constructor | src/layout/CommunitiesList.tsx:148-149 | the list starts with an empty search and no selection |
| Communities.CommunitiesState.Active | src/layout/CommunitiesList.tsx:208-210 | the active community is a listed one carrying the selected id; there is none exactly when the id is falsy or no community has it |
| Communities.CommunitiesState.SetSearchQuery | src/layout/CommunitiesList.tsx:254 | typing sets the query and keeps the selection |
| Communities.CommunitiesState.Click | src/layout/CommunitiesList.tsx:292 | clicking a row selects its id, and that community becomes active |
| Communities.CommunitiesState.Back | src/layout/CommunitiesList.tsx:212-214 | back clears the selection, so no community is active |
| Calls.FilteredCalls | src/layout/CallsList.tsx:87-89 | a call is kept exactly when its contact name matches; order is kept |
| Calls.EmptySearchKeepsAll | src/layout/CallsList.tsx:87-89 | an empty query keeps every call in order |
| Calls.SearchNarrows | src/layout/CallsList.tsx:87-89 | if q occurs in q', the results for q' are a subsequence of, and no more than, those for q |
| Calls.SearchIgnoresOtherFields | src/layout/CallsList.tsx:87-89 | two calls with the same contact name are kept or dropped together, whatever their date, time and type |
| Calls.CallTypeLabel | src/layout/CallsList.tsx:225-229 | "Incoming" for incoming, "Outgoing" for outgoing, "Missed" otherwise |
| Calls.CallTypeLabelInjective | src/layout/CallsList.tsx:225-229 | different call types get different labels |
| Calls.MissedCallsHaveNoDuration | src/layout/CallsList.tsx:26-85 | the missed calls of the table have no duration, and a duration is shown exactly for the other calls |
| Home.ActiveConversationOf | src/pages/Home.tsx:87-90 | the active conversation is in the table and has the selected id; it is null exactly when nothing is selected or no conversation has the id |
| Home.SelectingFindsConversation | src/pages/Home.tsx:87-90 | selecting any conversation of the table by its id makes exactly that one active |
| Home.InitialConversationIsDesignTeam | src/pages/Home.tsx:22-25 | id 2, chosen on mount, is the "Design Team" group |
| Home.HomeState.constructor | src/pages/Home.tsx:13-17 | tab "messages", nothing selected, sidebar closed, page scroll unlocked |
| Home.HomeState.ActiveConversation | src/pages/Home.tsx:87-90 | the active conversation is the table's conversation with the selected id; null exactly when nothing is selected or no conversation has it |
| Home.HomeState.Mount | src/pages/Home.tsx:22-25 | on mount with nothing selected, conversation 2 is selected |
| Home.HomeState.CloseSidebar | src/pages/Home.tsx:33-39 | closing the sidebar runs the effect that unlocks page scroll |
| Home.HomeState.TabChange | src/pages/Home.tsx:42-56 | sets the tab; closes the sidebar only on mobile; clears the selection exactly for tabs other than "messages" |
| Home.HomeState.SelectConversation | src/pages/Home.tsx:59-65 | selects the id, and closes the sidebar on mobile only |
| Home.HomeState.Back | src/pages/Home.tsx:68-72 | clears the selection on mobile, does nothing on desktop |
| Home.HomeState.ToggleSidebar | src/pages/Home.tsx:75-84 | flips the sidebar; page scroll is locked exactly when it opens |

## Left out

- Rendering, animation, CSS class choices made in JSX, icons and the `MessageBubble`, `MediaPreview`, `StatusIndicator` and `LightBox` components: presentation only.
- The typing-indicator timers, which use `setTimeout` and `Math.random` (src/layout/ChatArea.tsx:44-57). When and how often they fire is not modelled; `ChatState.TypingTimerFired` applies one firing.
- `formatTime` and the other locale formatting (`toLocaleTimeString`, `toLocaleString`): the time label of a sent message is a parameter of `SendMessage`.
- Sound playback (src/hooks/use-sound.ts), scroll-into-view, dark mode in `localStorage`, `alert` and `console.log`: browser I/O.
- `getAllUsers` (src/data/conversations.ts:168-170): returns the user table and states nothing further.
- The media query behind `isMobile`: each `Home` handler takes the screen size as an argument.
- The unmount cleanup that resets page scroll (src/pages/Home.tsx:28-30): after unmounting, no page state remains to model.
- Js.Lower: models `toLowerCase` on ASCII letters only, because full Unicode case mapping is a table this model does not carry.
- Js.IsWhiteSpace: takes the "Zs" category as of the code points listed, and does not follow later Unicode versions.
- ChatArea.ChatState.ConversationChanged: compares conversations by value, whereas React compares the prop by reference. The conversations of the table are distinct values, so the two agree there.
- Messages: the sender records of the table are written as references to the user table, which equal the inline records of the data file. The one exception is message 15, whose record is written out as the data file has it.
- ChatArea.GroupByDate: groups under any day label. The source's `reduce` into the plain object `{}` (src/layout/ChatArea.tsx:111-116) would throw for a label such as "constructor" or "__proto__", because `acc[date]` then finds a property of `Object.prototype`. No label of the table is one of these.
- ConversationList.Prefix2: counts Unicode characters, whereas `substring(0, 2)` counts UTF-16 code units. For a name that starts with a character outside the Basic Multilingual Plane, JavaScript gives one character where the model gives two.
- Messages.GetMessagesByConversation: its own contract states only the increasing id order. Which messages it returns is stated by the contract of MessagesOf, which it calls.

## Findings

| source | as written | input that shows it | evidently intended | confidence | as-written member | corrected member |
|---|---|---|---|---|---|---|
| src/layout/CommunitiesList.tsx:305 | `community.unreadCount && community.unreadCount > 0 && <Badge>` renders the value of the first falsy operand, and React renders the number 0 as text | a community with `unreadCount: 0`, such as "Developer Network" or "Book Club" in the table, shows a stray "0" beside its name | no badge and no text unless the count is positive (`unreadCount > 0 && …` or `!!unreadCount && …`) | high; not executed | Communities.StrayZeroInTable | Communities.BadgeSlotOf |
| src/data/messages.ts:232-250 | message 15 has a sender with `id: 3` (Alex Johnson's id) and Thomas Nelson's username, name, initials and colour | the record equals no user of the table; by id it is Alex Johnson, who is not a member of conversation 4, while by every other field it is Thomas Nelson | the sender is Thomas Nelson's record, with id 4 | medium; not executed | Messages.AsWrittenSenderIsNoUser | Messages.SendersAreUsers |
