/** The admin's inbox (components/admin/ChatView.tsx): the avatar initials,
    the conversation list newest first, which conversation is selected and
    when it is marked read, what the send button sends, and the messages of
    the selected conversation grouped under day dividers. */
module ChatView {
  import opened Types
  import opened Seqs
  import Text

  // --- Initials ---

  /** The avatar fallback for an empty name. */
  const NoName: string := "ع"

  /** `getInitials`: the first letters of the first and last space-separated
      parts when there are several and both are non-empty; otherwise the
      first two characters, or the fallback for an empty name. */
  function Initials(name: string): (r: string)
    ensures name == [] ==> r == NoName
    ensures 1 <= |r| <= 2
  {
    var names := Text.Split(name, ' ');
    if |names| > 1 && names[0] != "" && names[|names| - 1] != "" then
      Text.SplitFirst(name, ' ');
      [names[0][0], names[|names| - 1][0]]
    else if name != "" then Text.Substring(name, 0, 2)
    else NoName
  }

  /** A name that starts with a letter and has a space after which more
      follows gives its first character and the one after its last space. */
  lemma InitialsOfFullName(name: string, i: int)
    requires 0 < i < |name| - 1 && name[i] == ' ' && ' ' !in name[i + 1..] && name[0] != ' '
    ensures Initials(name) == [name[0], name[i + 1]]
  {
    Text.SplitFirst(name, ' ');
    Text.SplitMany(name, ' ');
    Text.SplitLast(name, ' ', i);
  }

  /** A non-empty name without a space, or one that starts or ends with a
      space, gives its first two characters (or its only one). */
  lemma InitialsFallback(name: string)
    requires name != []
    requires ' ' !in name || name[0] == ' ' || name[|name| - 1] == ' '
    ensures Initials(name) == if |name| < 2 then name else name[..2]
  {
    Text.SplitFirst(name, ' ');
    if ' ' !in name {
      Text.SplitNoSeparator(name, ' ');
    } else if name[|name| - 1] == ' ' {
      Text.SplitLast(name, ' ', |name| - 1);
    }
  }

  // --- The conversation list ---

  /** `b.lastTimestamp - a.lastTimestamp` as an order: newer first, ties kept
      in the order given. */
  predicate NewerFirst(a: ChatConversation, b: ChatConversation)
  {
    b.lastTimestamp - a.lastTimestamp <= 0
  }

  /** `sortedConversations`: a sorted copy, newest message first. */
  function SortedConversations(conversations: seq<ChatConversation>): (r: seq<ChatConversation>)
    ensures multiset(r) == multiset(conversations)
    ensures forall k :: 0 < k < |r| ==> r[k - 1].lastTimestamp >= r[k].lastTimestamp
  {
    SortSorted(conversations, NewerFirst);
    Sort(conversations, NewerFirst)
  }

  /** The first listed conversation is the one with the latest message. */
  lemma MostRecentFirst(conversations: seq<ChatConversation>)
    requires conversations != []
    ensures var r := SortedConversations(conversations);
            |r| > 0 && r[0] in conversations
            && forall c :: c in conversations ==> r[0].lastTimestamp >= c.lastTimestamp
  {
    var r := SortedConversations(conversations);
    assert |r| == |multiset(r)| == |conversations|;
    assert r[0] in multiset(r);
    forall c | c in conversations ensures r[0].lastTimestamp >= c.lastTimestamp {
      assert c in multiset(r);
      var j :| 0 <= j < |r| && r[j] == c;
      SortedPrefix(r, j);
    }
  }

  lemma {:induction false} SortedPrefix(r: seq<ChatConversation>, j: int)
    requires forall k :: 0 < k < |r| ==> r[k - 1].lastTimestamp >= r[k].lastTimestamp
    requires 0 <= j < |r|
    ensures r[0].lastTimestamp >= r[j].lastTimestamp
    decreases j
  {
    if j > 0 {
      SortedPrefix(r, j - 1);
    }
  }

  // --- Selection and sending ---

  /** The conversation the effect selects: the newest, on a wide screen with
      nothing (or an empty id) selected and some conversation to show. */
  function AutoSelected(selected: Option<string>, sorted: seq<ChatConversation>, isMobile: bool): (r: Option<ChatConversation>)
    ensures r.Some? <==> !isMobile && !TextTruthy(selected) && |sorted| > 0
    ensures r.Some? ==> r.value == sorted[0]
  {
    if !isMobile && !TextTruthy(selected) && |sorted| > 0 then Some(sorted[0]) else None
  }

  /** A conversation is marked read on selection only when the admin has
      unread messages in it. */
  function MarkOnSelect(conversations: seq<ChatConversation>, id: string): (r: Option<string>)
    ensures r.Some? <==> FindConversation(conversations, id).Some? && FindConversation(conversations, id).value.unreadAdmin > 0
    ensures r.Some? ==> r.value == id
  {
    var c := FindConversation(conversations, id);
    if c.Some? && c.value.unreadAdmin > 0 then Some(id) else None
  }

  /** `onSendMessage(text, 'admin', conversationId)`. */
  datatype Outgoing = Outgoing(text: string, sender: Sender, conversationId: string)

  /** `handleSend`: a draft that is not blank, into a selected conversation,
      goes out trimmed and from the admin. */
  function SendRequest(draft: string, selected: Option<string>): (r: Option<Outgoing>)
    ensures r.Some? <==> Text.Trim(draft) != "" && TextTruthy(selected)
    ensures r.Some? ==> r.value == Outgoing(Text.Trim(draft), FromAdmin, selected.value) && r.value.text != ""
  {
    if Text.Trim(draft) != "" && TextTruthy(selected) then
      Some(Outgoing(Text.Trim(draft), FromAdmin, selected.value))
    else None
  }

  /** A sent message never starts or ends with white space. */
  lemma SentIsTrimmed(draft: string, selected: Option<string>)
    requires SendRequest(draft, selected).Some?
    ensures var t := SendRequest(draft, selected).value.text;
            !Text.IsSpace(t[0]) && !Text.IsSpace(t[|t| - 1])
  {
    Text.TrimShape(draft);
  }

  /** The inbox's state: the selected conversation and the draft. */
  class Inbox {
    var selected: Option<string>
    var draft: string

    constructor()
      ensures selected == None && draft == ""
    {
      selected := None;
      draft := "";
    }

    /** The effect over the sorted list: select the newest conversation and
        ask to mark it read when it has unread messages. */
    method AutoSelect(sorted: seq<ChatConversation>, isMobile: bool) returns (markRead: Option<string>)
      modifies this
      ensures var c := AutoSelected(old(selected), sorted, isMobile);
              if c.Some? then
                selected == Some(c.value.id) && (markRead.Some? <==> c.value.unreadAdmin > 0)
                && (markRead.Some? ==> markRead.value == c.value.id)
              else
                selected == old(selected) && markRead.None?
      ensures draft == old(draft)
    {
      markRead := None;
      if !isMobile && !TextTruthy(selected) && |sorted| > 0 {
        var first := sorted[0];
        selected := Some(first.id);
        if first.unreadAdmin > 0 {
          markRead := Some(first.id);
        }
      }
    }

    /** `handleSelectConvo`. */
    method Select(conversations: seq<ChatConversation>, id: string) returns (markRead: Option<string>)
      modifies this
      ensures selected == Some(id) && draft == old(draft)
      ensures markRead == MarkOnSelect(conversations, id)
    {
      selected := Some(id);
      var c := FindConversation(conversations, id);
      markRead := if c.Some? && c.value.unreadAdmin > 0 then Some(id) else None;
    }

    method SetDraft(text: string)
      modifies this
      ensures draft == text && selected == old(selected)
    {
      draft := text;
    }

    /** `handleSend`: a sent draft is cleared, a refused one is kept. */
    method Send() returns (sent: Option<Outgoing>)
      modifies this
      ensures sent == SendRequest(old(draft), old(selected))
      ensures draft == (if sent.Some? then "" else old(draft)) && selected == old(selected)
    {
      var text := Text.Trim(draft);
      if text != "" && TextTruthy(selected) {
        sent := Some(Outgoing(text, FromAdmin, selected.value));
        draft := "";
      } else {
        sent := None;
      }
    }
  }

  // --- The selected conversation's messages ---

  function InConversation(selected: Option<string>): ChatMessage -> bool
  {
    (m: ChatMessage) => selected == Some(m.conversationId)
  }

  /** `selectedMessages`: the messages of the selected conversation, in
      order; none while nothing is selected. */
  function SelectedMessages(messages: seq<ChatMessage>, selected: Option<string>): (r: seq<ChatMessage>)
    ensures forall m :: m in r <==> m in messages && selected == Some(m.conversationId)
    ensures Subsequence(r, messages)
    ensures selected.None? ==> r == []
  {
    FilterIsSubsequence(messages, InConversation(selected));
    if selected.None? then
      FilterNone(messages, InConversation(selected));
      Filter(messages, InConversation(selected))
    else Filter(messages, InConversation(selected))
  }

  /** An entry of the message pane: a day divider (labelled from its
      timestamp) or a message bubble. */
  datatype Entry = DayDivider(timestamp: int) | Bubble(message: ChatMessage)

  /** The pane as a rule over the messages: each message is preceded by a
      divider when it is the first or its day differs from the previous
      message's. `day` stands for `new Date(t).toDateString()`. */
  function Grouped(messages: seq<ChatMessage>, day: int -> string): seq<Entry>
    decreases |messages|
  {
    if messages == [] then []
    else
      var init, m := messages[..|messages| - 1], messages[|messages| - 1];
      var newDay := init == [] || day(init[|init| - 1].timestamp) != day(m.timestamp);
      Grouped(init, day) + (if newDay then [DayDivider(m.timestamp)] else []) + [Bubble(m)]
  }

  /** `groupedMessages`: the `forEach` that remembers the last day seen. */
  method GroupMessages(messages: seq<ChatMessage>, day: int -> string) returns (groups: seq<Entry>)
    ensures groups == Grouped(messages, day)
  {
    groups := [];
    var lastDate: Option<string> := None;
    var i := 0;
    while i < |messages|
      invariant 0 <= i <= |messages|
      invariant groups == Grouped(messages[..i], day)
      invariant lastDate == if i == 0 then None else Some(day(messages[i - 1].timestamp))
    {
      var m := messages[i];
      var msgDate := day(m.timestamp);
      assert messages[..i + 1][..i] == messages[..i];
      if Some(msgDate) != lastDate {
        groups := groups + [DayDivider(m.timestamp)];
        lastDate := Some(msgDate);
      }
      groups := groups + [Bubble(m)];
      i := i + 1;
    }
    assert messages[..i] == messages;
  }

  /** The messages of a pane, dividers dropped. */
  function Bubbles(entries: seq<Entry>): (r: seq<ChatMessage>)
    ensures |r| <= |entries|
  {
    if entries == [] then []
    else (if entries[0].Bubble? then [entries[0].message] else []) + Bubbles(entries[1..])
  }

  lemma {:induction false} BubblesConcat(a: seq<Entry>, b: seq<Entry>)
    ensures Bubbles(a + b) == Bubbles(a) + Bubbles(b)
    decreases |a|
  {
    if a != [] {
      assert (a + b)[1..] == a[1..] + b;
      BubblesConcat(a[1..], b);
    } else {
      assert a + b == b;
    }
  }

  /** Grouping keeps every message, in order, and adds only dividers. */
  lemma {:induction false} GroupingKeepsMessages(messages: seq<ChatMessage>, day: int -> string)
    ensures Bubbles(Grouped(messages, day)) == messages
    decreases |messages|
  {
    if messages != [] {
      var init, m := messages[..|messages| - 1], messages[|messages| - 1];
      var newDay := init == [] || day(init[|init| - 1].timestamp) != day(m.timestamp);
      var g := Grouped(init, day);
      var d: seq<Entry> := if newDay then [DayDivider(m.timestamp)] else [];
      assert Grouped(messages, day) == g + d + [Bubble(m)];
      GroupingKeepsMessages(init, day);
      LastStepBubbles(g, d, m);
      assert init + [m] == messages;
    }
  }

  /** The messages of the entries so far, an optional divider and one more
      bubble are those so far and the new message. */
  lemma LastStepBubbles(g: seq<Entry>, d: seq<Entry>, m: ChatMessage)
    requires d == [] || (|d| == 1 && d[0].DayDivider?)
    ensures Bubbles(g + d + [Bubble(m)]) == Bubbles(g) + [m]
  {
    BubblesConcat(g + d, [Bubble(m)]);
    BubblesConcat(g, d);
    assert Bubbles([Bubble(m)]) == [m] + Bubbles([]);
    if d != [] {
      assert Bubbles(d) == [] + Bubbles([]) by {
        assert d[1..] == [];
      }
    }
    assert Bubbles(g) + [] == Bubbles(g);
  }

  /** A non-empty pane opens with a divider for the first message, and every
      divider is directly followed by the message whose day it announces. */
  lemma {:induction false} DividersAnnounce(messages: seq<ChatMessage>, day: int -> string)
    ensures messages != [] ==> |Grouped(messages, day)| >= 2
                               && Grouped(messages, day)[0] == DayDivider(messages[0].timestamp)
    ensures var g := Grouped(messages, day);
            forall k :: 0 <= k < |g| && g[k].DayDivider? ==>
              k + 1 < |g| && g[k + 1].Bubble? && g[k + 1].message.timestamp == g[k].timestamp
    decreases |messages|
  {
    if messages != [] {
      var init := messages[..|messages| - 1];
      DividersAnnounce(init, day);
      if init != [] {
        assert init[0] == messages[0];
      }
    }
  }
}
