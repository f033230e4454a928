/**
 * The inbox (`app/messages/page.tsx`): a list of conversations, the open
 * conversation, the draft being typed and the search box. Sending appends
 * the draft to the open conversation and writes that conversation back into
 * the list.
 */
module Messages {
  import opened Wrappers
  import opened Text
  import opened Seqs

  datatype Message = Message(
    id: string,
    content: string,
    timestamp: string,
    senderId: string,
    senderName: string)

  datatype Conversation = Conversation(
    id: string,
    userName: string,
    userAvatar: string,
    userIsOnline: bool,
    lastMessage: string,
    timestamp: string,
    unreadCount: int,
    messages: seq<Message>)

  /** `newMessage.trim() && selectedConversation`: the guard of `sendMessage`. */
  predicate CanSend(draft: string, selected: Option<Conversation>)
  {
    Trim(draft) != "" && selected.Some?
  }

  /**
   * The message built from the draft. Its id (`Date.now()`) and clock
   * reading (`toLocaleTimeString`) are supplied by the caller.
   */
  function OwnMessage(draft: string, messageId: string, clock: string): Message
  {
    Message(messageId, draft, clock, "me", "You")
  }

  /** `updatedConversation`: the message appended, the preview set to the draft, the time to "now". */
  function WithMessage(c: Conversation, draft: string, messageId: string, clock: string): Conversation
  {
    c.(messages := c.messages + [OwnMessage(draft, messageId, clock)], lastMessage := draft, timestamp := "now")
  }

  /** The `map` callback that writes the updated conversation back. */
  function ReplaceIf(id: string, updated: Conversation): Conversation -> Conversation
  {
    (c: Conversation) => if c.id == id then updated else c
  }

  /** `conversations.map((c) => (c.id === selectedConversation.id ? updatedConversation : c))`. */
  function Replaced(cs: seq<Conversation>, id: string, updated: Conversation): seq<Conversation>
  {
    Map(cs, ReplaceIf(id, updated))
  }

  function NameMatches(query: string): Conversation -> bool
  {
    (c: Conversation) => IncludesIgnoringCase(c.userName, query)
  }

  /** `filteredConversations`. */
  function FilteredConversations(cs: seq<Conversation>, query: string): seq<Conversation>
  {
    Filter(cs, NameMatches(query))
  }

  /** A message is sent exactly when a conversation is open and the draft holds a character other than whitespace. */
  lemma CanSendIff(draft: string, selected: Option<Conversation>)
    ensures CanSend(draft, selected) <==> selected.Some? && exists i :: 0 <= i < |draft| && !IsWhitespace(draft[i])
  {
    TrimEmptyIffBlank(draft);
  }

  /**
   * The updated conversation has exactly one more message, at the end, from
   * "me" and holding the untrimmed draft; its preview is the draft and its
   * time "now"; its id, contact and unread count are unchanged.
   */
  lemma WithMessageAppendsOne(c: Conversation, draft: string, messageId: string, clock: string)
    ensures var u := WithMessage(c, draft, messageId, clock);
      && |u.messages| == |c.messages| + 1
      && u.messages[..|c.messages|] == c.messages
      && u.messages[|c.messages|].senderId == "me"
      && u.messages[|c.messages|].content == draft
      && u.lastMessage == draft && u.timestamp == "now"
      && u.(messages := c.messages, lastMessage := c.lastMessage, timestamp := c.timestamp) == c
  {
    var u := WithMessage(c, draft, messageId, clock);
    assert u.messages[..|c.messages|] == c.messages;
  }

  /** Writing back replaces the conversations with the open one's id and no others; length and order are kept. */
  lemma ReplacedChangesOnlyMatches(cs: seq<Conversation>, id: string, updated: Conversation)
    ensures |Replaced(cs, id, updated)| == |cs|
    ensures forall i :: 0 <= i < |cs| && cs[i].id == id ==> Replaced(cs, id, updated)[i] == updated
    ensures forall i :: 0 <= i < |cs| && cs[i].id != id ==> Replaced(cs, id, updated)[i] == cs[i]
  {
    var r := Replaced(cs, id, updated);
    forall i | 0 <= i < |cs| ensures r[i] == ReplaceIf(id, updated)(cs[i]) {
    }
  }

  /** The search keeps exactly the conversations whose contact name contains the query, ignoring case, in order. */
  lemma FilteredConversationsExactly(cs: seq<Conversation>, query: string)
    ensures forall c :: c in FilteredConversations(cs, query) <==> c in cs && IncludesIgnoringCase(c.userName, query)
    ensures IsSubsequence(FilteredConversations(cs, query), cs)
  {
    var r := FilteredConversations(cs, query);
    FilterIsSubsequence(cs, NameMatches(query));
    forall c | c in r ensures c in cs && IncludesIgnoringCase(c.userName, query) {
      var i :| 0 <= i < |r| && r[i] == c;
      assert NameMatches(query)(r[i]);
      assert c in multiset(r);
    }
    forall c | c in cs && IncludesIgnoringCase(c.userName, query) ensures c in r {
      assert NameMatches(query)(c);
    }
  }

  /** An empty search box lists every conversation, in order. */
  lemma EmptySearchListsAll(cs: seq<Conversation>)
    ensures FilteredConversations(cs, "") == cs
  {
    forall i | 0 <= i < |cs| ensures NameMatches("")(cs[i]) {
      EmptyNeedleMatches(cs[i].userName);
    }
    FilterAllPass(cs, NameMatches(""));
  }

  /** The page's state. */
  class MessagesPage {
    var conversations: seq<Conversation>
    var selected: Option<Conversation>
    var newMessage: string
    var searchQuery: string

    /** The first conversation starts open (`conversations[0]`, nothing when the list is empty). */
    constructor (initial: seq<Conversation>)
      ensures conversations == initial
      ensures selected == (if initial == [] then None else Some(initial[0]))
      ensures newMessage == "" && searchQuery == ""
    {
      conversations := initial;
      selected := if initial == [] then None else Some(initial[0]);
      newMessage := "";
      searchQuery := "";
    }

    /** Clicking a conversation in the list opens it. */
    method Select(c: Conversation)
      modifies this
      ensures selected == Some(c)
      ensures conversations == old(conversations) && newMessage == old(newMessage) && searchQuery == old(searchQuery)
    {
      selected := Some(c);
    }

    /** `sendMessage`: the new message's id and clock reading are the caller's. */
    method SendMessage(messageId: string, clock: string)
      modifies this
      ensures searchQuery == old(searchQuery)
      ensures !CanSend(old(newMessage), old(selected)) ==>
        conversations == old(conversations) && selected == old(selected) && newMessage == old(newMessage)
      ensures CanSend(old(newMessage), old(selected)) ==>
        var updated := WithMessage(old(selected).value, old(newMessage), messageId, clock);
        && conversations == Replaced(old(conversations), old(selected).value.id, updated)
        && selected == Some(updated)
        && newMessage == ""
    {
      if Trim(newMessage) != "" && selected.Some? {
        var updated := WithMessage(selected.value, newMessage, messageId, clock);
        conversations := Replaced(conversations, selected.value.id, updated);
        selected := Some(updated);
        newMessage := "";
      }
    }
  }
}
