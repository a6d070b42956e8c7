/**
 * The call history: the search over contact names, the label of a call's
 * direction and whether its duration is shown.
 */
module Calls {
  import opened Js
  import opened Seqs

  datatype CallType = Incoming | Outgoing | Missed

  datatype Call = Call(
    id: int,
    contactName: string,
    contactInitials: string,
    contactColor: string,
    kind: CallType,
    date: string,
    time: string,
    duration: Option<string>)

  /** The calls the history shows. */
  const CallTable: seq<Call> := [
    Call(1, "Sarah Johnson", "SJ", "bg-purple-100 text-purple-600", Incoming, "Today", "10:23 AM", Some("14:32")),
    Call(2, "Michael Chen", "MC", "bg-blue-100 text-blue-600", Outgoing, "Today", "9:15 AM", Some("5:45")),
    Call(3, "Emily Davis", "ED", "bg-amber-100 text-amber-600", Missed, "Yesterday", "4:32 PM", None),
    Call(4, "Marketing Team", "MT", "bg-green-100 text-green-600", Incoming, "Yesterday", "2:10 PM", Some("45:20")),
    Call(5, "James Wilson", "JW", "bg-red-100 text-red-600", Outgoing, "Feb 21", "11:05 AM", Some("3:12")),
    Call(6, "Sarah Johnson", "SJ", "bg-purple-100 text-purple-600", Missed, "Feb 20", "6:43 PM", None)
  ]

  function NameMatches(query: string): Call -> bool {
    (c: Call) => MatchesQuery(c.contactName, query)
  }

  /** `filteredCalls`: the calls whose contact name matches, in list order. */
  function FilteredCalls(calls: seq<Call>, query: string): (r: seq<Call>)
    ensures forall c :: c in r ==> c in calls && MatchesQuery(c.contactName, query)
    ensures forall c :: c in calls && MatchesQuery(c.contactName, query) ==> c in r
    ensures IsSubsequence(r, calls) && |r| <= |calls|
  {
    FilterMembers(calls, NameMatches(query));
    FilterIsSubsequence(calls, NameMatches(query));
    Filter(calls, NameMatches(query))
  }

  /** An empty search shows every call in its original order. */
  lemma EmptySearchKeepsAll(calls: seq<Call>)
    ensures FilteredCalls(calls, "") == calls
  {
    forall i | 0 <= i < |calls|
      ensures NameMatches("")(calls[i])
    {
      EmptyQueryMatches(calls[i].contactName);
    }
    FilterKeepsAll(calls, NameMatches(""));
  }

  /** When q occurs in q', every result for q' is a result for q, in the same order. */
  lemma SearchNarrows(calls: seq<Call>, q: string, q': string)
    requires Includes(q', q)
    ensures IsSubsequence(FilteredCalls(calls, q'), FilteredCalls(calls, q))
    ensures |FilteredCalls(calls, q')| <= |FilteredCalls(calls, q)|
  {
    forall i | 0 <= i < |calls| && NameMatches(q')(calls[i])
      ensures NameMatches(q)(calls[i])
    {
      MatchesQueryNarrowing(calls[i].contactName, q, q');
    }
    FilterNarrowing(calls, NameMatches(q'), NameMatches(q));
  }

  /** Only the contact name is searched: calls that differ in nothing else are kept or dropped together. */
  lemma SearchIgnoresOtherFields(a: Call, b: Call, query: string)
    requires a.contactName == b.contactName
    ensures a in FilteredCalls([a, b], query) <==> b in FilteredCalls([a, b], query)
  {
  }

  /** The label in front of "call": incoming and outgoing by name, anything else "Missed". */
  function CallTypeLabel(t: CallType): (r: string)
    ensures t == Incoming ==> r == "Incoming"
    ensures t == Outgoing ==> r == "Outgoing"
    ensures t != Incoming && t != Outgoing ==> r == "Missed"
  {
    if t == Incoming then "Incoming" else if t == Outgoing then "Outgoing" else "Missed"
  }

  /** The three labels are different, so the label tells the direction. */
  lemma CallTypeLabelInjective(s: CallType, t: CallType)
    ensures CallTypeLabel(s) == CallTypeLabel(t) ==> s == t
  {
  }

  /** `call.duration && …`: the duration is shown when it is present and not empty. */
  predicate DurationShown(c: Call) {
    StringTruthy(c.duration)
  }

  /** In the table a duration is shown exactly for the calls that were not missed. */
  lemma MissedCallsHaveNoDuration()
    ensures forall i :: 0 <= i < |CallTable| ==> (CallTable[i].kind == Missed ==> CallTable[i].duration.None?)
    ensures forall i :: 0 <= i < |CallTable| ==> (DurationShown(CallTable[i]) <==> CallTable[i].kind != Missed)
  {
  }
}
