/** The message controller: sending a message about an order or directly to
    a user, grouping a user's messages into one conversation per partner,
    and marking received messages as read. */
module Messages {
  import opened Wrappers
  import opened Strings
  import opened Store

  // ---------------------------------------------------------------------
  // Sending
  // ---------------------------------------------------------------------

  /** Content that is absent, empty or only whitespace is refused. */
  predicate BlankContent(content: Option<string>) {
    !Truthy(content) || Trim(content.value) == ""
  }

  /** Blank content is exactly content made of whitespace alone. */
  lemma BlankContentIsWhitespace(content: Option<string>)
    ensures BlankContent(content) <==> content.None? || AllWhitespace(content.value)
  {
    if content.Some? {
      TrimEmptyIffBlank(content.value);
    }
  }

  /** The receiver of a message about an order: the explicit receiver when
      one is given, otherwise the other party of the order. */
  function ReceiverFor(order: Order, caller: string, receiverId: Option<string>): (receiver: string)
    ensures Truthy(receiverId) ==> receiver == receiverId.value
    ensures !Truthy(receiverId) && caller == order.customerId ==> receiver == order.sellerId
    ensures !Truthy(receiverId) && caller != order.customerId ==> receiver == order.customerId
    ensures !Truthy(receiverId) && order.IsParty(caller) && order.customerId != order.sellerId ==> receiver != caller
  {
    var autoReceiverId := if caller == order.customerId then order.sellerId else order.customerId;
    if receiverId.Some? && receiverId.value != "" then receiverId.value else autoReceiverId
  }

  /** `sendMessage`. The new message gets the id `newId` and the time `now`;
      a receiver that is not a user breaks the message's foreign key, which
      the database refuses. */
  method SendMessage(db: Database, caller: string, orderId: Option<string>, receiverId: Option<string>,
                     content: Option<string>, newId: string, now: int)
    returns (r: Result<Message, Failure>)
    requires newId !in db.messages
    modifies db
    ensures db.orders == old(db.orders) && db.cars == old(db.cars) && db.users == old(db.users)
    ensures BlankContent(content) ==> r == Failure(ValidationError)
    ensures !BlankContent(content) && Truthy(orderId) ==>
      if orderId.value !in db.orders then r == Failure(NotFound)
      else if !db.orders[orderId.value].IsParty(caller) then r == Failure(Forbidden)
      else
        var receiver := ReceiverFor(db.orders[orderId.value], caller, receiverId);
        if receiver !in db.users then r == Failure(ServerError)
        else r == Success(Message(caller, receiver, orderId, content.value, false, now))
    ensures !BlankContent(content) && !Truthy(orderId) && Truthy(receiverId) ==>
      if receiverId.value !in db.users then r == Failure(NotFound)
      else r == Success(Message(caller, receiverId.value, None, content.value, false, now))
    ensures !BlankContent(content) && !Truthy(orderId) && !Truthy(receiverId) ==> r == Failure(ValidationError)
    ensures r.Success? ==> db.messages == old(db.messages)[newId := r.value]
    ensures r.Failure? ==> db.messages == old(db.messages)
    ensures old(db.Valid()) ==> db.Valid()
  {
    if BlankContent(content) {
      return Failure(ValidationError);
    }
    if orderId.Some? && orderId.value != "" {
      if orderId.value !in db.orders {
        return Failure(NotFound);
      }
      var order := db.orders[orderId.value];
      if !order.IsParty(caller) {
        return Failure(Forbidden);
      }
      var receiver := ReceiverFor(order, caller, receiverId);
      if receiver !in db.users {
        return Failure(ServerError);
      }
      r := Success(Message(caller, receiver, orderId, content.value, false, now));
      Insert(db, newId, r.value);
    } else if receiverId.Some? && receiverId.value != "" {
      if receiverId.value !in db.users {
        return Failure(NotFound);
      }
      r := Success(Message(caller, receiverId.value, None, content.value, false, now));
      Insert(db, newId, r.value);
    } else {
      r := Failure(ValidationError);
    }
  }

  /** The database write of a new message. */
  method Insert(db: Database, id: string, message: Message)
    modifies db
    ensures db.orders == old(db.orders) && db.cars == old(db.cars) && db.users == old(db.users)
    ensures db.messages == old(db.messages)[id := message]
  {
    db.messages := db.messages[id := message];
  }

  // ---------------------------------------------------------------------
  // Conversations
  // ---------------------------------------------------------------------

  /** The other user of a message, seen from `caller`. */
  function Partner(m: Message, caller: string): string {
    if m.senderId == caller then m.receiverId else m.senderId
  }

  /** A message the caller received and has not read. */
  predicate UnreadBy(m: Message, caller: string) {
    m.receiverId == caller && !m.read
  }

  /** One entry of the conversation list. */
  datatype Conversation = Conversation(partnerId: string, lastMessage: Message, orderId: Option<string>, unreadCount: nat)

  /** One step of the grouping loop: a new partner opens an entry; a known
      partner's entry takes the message only when it is strictly newer than
      the entry's last message, and only then counts it as unread. */
  function Step(conversations: map<string, Conversation>, m: Message, caller: string): (after: map<string, Conversation>)
    ensures after.Keys == conversations.Keys + {Partner(m, caller)}
    ensures forall p :: p in conversations && p != Partner(m, caller) ==> after[p] == conversations[p]
  {
    var partnerId := Partner(m, caller);
    if partnerId !in conversations then
      conversations[partnerId := Conversation(partnerId, m, m.orderId, if UnreadBy(m, caller) then 1 else 0)]
    else if m.createdAt > conversations[partnerId].lastMessage.createdAt then
      var c := conversations[partnerId];
      conversations[partnerId := c.(lastMessage := m, unreadCount := c.unreadCount + if UnreadBy(m, caller) then 1 else 0)]
    else
      conversations
  }

  /** The grouping of a message list, message by message from the first. */
  function Group(msgs: seq<Message>, caller: string): map<string, Conversation> {
    if |msgs| == 0 then map[] else Step(Group(msgs[..|msgs| - 1], caller), msgs[|msgs| - 1], caller)
  }

  /** The body of the loop in `getConversations`, applied to one message. */
  method AddMessage(conversations: map<string, Conversation>, message: Message, caller: string)
    returns (after: map<string, Conversation>)
    ensures after == Step(conversations, message, caller)
  {
    var partnerId := if message.senderId == caller then message.receiverId else message.senderId;
    after := conversations;
    if partnerId !in after {
      after := after[partnerId := Conversation(partnerId, message, message.orderId,
        if message.receiverId == caller && !message.read then 1 else 0)];
    } else if message.createdAt > after[partnerId].lastMessage.createdAt {
      var c := after[partnerId].(lastMessage := message);
      if message.receiverId == caller && !message.read {
        c := c.(unreadCount := c.unreadCount + 1);
      }
      after := after[partnerId := c];
    }
  }

  /** `getConversations`: the loop over the caller's messages (the query
      hands them over newest first) that fills the conversation dictionary. */
  method GetConversations(msgs: seq<Message>, caller: string) returns (conversations: map<string, Conversation>)
    ensures conversations == Group(msgs, caller)
  {
    conversations := map[];
    for i := 0 to |msgs|
      invariant conversations == Group(msgs[..i], caller)
    {
      conversations := AddMessage(conversations, msgs[i], caller);
      assert msgs[..i + 1][..i] == msgs[..i];
    }
    assert msgs[..|msgs|] == msgs;
  }

  /** The index of the first message with partner `p`, or `|msgs|` when
      there is none. */
  function FirstWith(msgs: seq<Message>, p: string, caller: string): (i: nat)
    ensures i <= |msgs|
    ensures i < |msgs| ==> Partner(msgs[i], caller) == p
    ensures forall j :: 0 <= j < i ==> Partner(msgs[j], caller) != p
  {
    if |msgs| == 0 then 0
    else
      var k := FirstWith(msgs[..|msgs| - 1], p, caller);
      if k < |msgs| - 1 then k
      else if Partner(msgs[|msgs| - 1], caller) == p then |msgs| - 1
      else |msgs|
  }

  /** There is exactly one entry per partner, keyed by the partner's id;
      its order id is that of the first message exchanged with the partner. */
  lemma {:induction false} GroupEntries(msgs: seq<Message>, caller: string, p: string)
    ensures p in Group(msgs, caller) <==> FirstWith(msgs, p, caller) < |msgs|
    ensures p in Group(msgs, caller) ==>
      && Group(msgs, caller)[p].partnerId == p
      && Group(msgs, caller)[p].orderId == msgs[FirstWith(msgs, p, caller)].orderId
  {
    if |msgs| > 0 {
      var init := msgs[..|msgs| - 1];
      GroupEntries(init, caller, p);
      assert forall j :: 0 <= j < |init| ==> init[j] == msgs[j];
    }
  }

  /** Every entry's last message is a message with that partner, and no
      message with the partner is newer. */
  lemma {:induction false} GroupKeepsLatest(msgs: seq<Message>, caller: string, p: string)
    requires p in Group(msgs, caller)
    ensures Group(msgs, caller)[p].lastMessage in msgs
    ensures Partner(Group(msgs, caller)[p].lastMessage, caller) == p
    ensures forall m :: m in msgs && Partner(m, caller) == p ==> m.createdAt <= Group(msgs, caller)[p].lastMessage.createdAt
  {
    var init := msgs[..|msgs| - 1];
    var last := msgs[|msgs| - 1];
    assert msgs == init + [last];
    assert forall m :: m in msgs ==> m in init || m == last;
    if p in Group(init, caller) {
      GroupKeepsLatest(init, caller, p);
    } else {
      GroupEntries(init, caller, p);
      assert forall m :: m in init ==> Partner(m, caller) != p;
    }
  }

  /** Newest first: no message of the list is newer than an earlier one. */
  predicate NewestFirst(msgs: seq<Message>) {
    forall i, j :: 0 <= i < j < |msgs| ==> msgs[j].createdAt <= msgs[i].createdAt
  }

  /** With the list newest first, no later message is strictly newer, so an
      entry keeps the first message it saw and counts at most that one as
      unread. */
  lemma {:induction false} NewestFirstKeepsFirstMessage(msgs: seq<Message>, caller: string, p: string)
    requires NewestFirst(msgs)
    requires p in Group(msgs, caller)
    ensures FirstWith(msgs, p, caller) < |msgs|
    ensures Group(msgs, caller)[p].lastMessage == msgs[FirstWith(msgs, p, caller)]
    ensures Group(msgs, caller)[p].unreadCount == if UnreadBy(msgs[FirstWith(msgs, p, caller)], caller) then 1 else 0
    ensures Group(msgs, caller)[p].unreadCount <= 1
  {
    GroupEntries(msgs, caller, p);
    var init := msgs[..|msgs| - 1];
    var last := msgs[|msgs| - 1];
    assert forall j :: 0 <= j < |init| ==> init[j] == msgs[j];
    GroupEntries(init, caller, p);
    if p in Group(init, caller) {
      NewestFirstKeepsFirstMessage(init, caller, p);
      var k := FirstWith(init, p, caller);
      assert FirstWith(msgs, p, caller) == k;
      assert last.createdAt <= msgs[k].createdAt;
    } else {
      assert FirstWith(msgs, p, caller) == |msgs| - 1;
    }
  }

  /** The number of unread messages the caller received from `p`. */
  function CountUnread(msgs: seq<Message>, p: string, caller: string): (n: nat)
    ensures n <= |msgs|
  {
    if |msgs| == 0 then 0
    else
      var last := msgs[|msgs| - 1];
      CountUnread(msgs[..|msgs| - 1], p, caller) + if Partner(last, caller) == p && UnreadBy(last, caller) then 1 else 0
  }

  /** The entry's count never exceeds the real number of unread messages. */
  lemma {:induction false} UnreadCountBounded(msgs: seq<Message>, caller: string, p: string)
    requires p in Group(msgs, caller)
    ensures Group(msgs, caller)[p].unreadCount <= CountUnread(msgs, p, caller)
  {
    var init := msgs[..|msgs| - 1];
    if p in Group(init, caller) {
      UnreadCountBounded(init, caller, p);
    }
  }

  /** Two unread messages from the same partner, newest first, as the query
      delivers them: the entry reports one unread message. */
  lemma UnreadCountUndercounts()
    ensures
      var older := Message("b", "a", None, "hello", false, 1);
      var newer := Message("b", "a", None, "are you there?", false, 2);
      && CountUnread([newer, older], "b", "a") == 2
      && Group([newer, older], "a")["b"].unreadCount == 1
  {
    var older := Message("b", "a", None, "hello", false, 1);
    var newer := Message("b", "a", None, "are you there?", false, 2);
    assert [newer, older][..1] == [newer];
    assert [newer][..0] == [];
    assert Group([newer], "a") == map["b" := Conversation("b", newer, None, 1)];
    assert Group([newer, older], "a") == Step(Group([newer], "a"), older, "a");
  }

  /** The grouping step as evidently intended: the last message is chosen as
      before, and every unread message from the partner is counted. */
  function CountingStep(conversations: map<string, Conversation>, m: Message, caller: string): (after: map<string, Conversation>)
    ensures after.Keys == conversations.Keys + {Partner(m, caller)}
    ensures forall p :: p in conversations && p != Partner(m, caller) ==> after[p] == conversations[p]
  {
    var partnerId := Partner(m, caller);
    var unread := if UnreadBy(m, caller) then 1 else 0;
    if partnerId !in conversations then
      conversations[partnerId := Conversation(partnerId, m, m.orderId, unread)]
    else
      var c := conversations[partnerId];
      var newest := if m.createdAt > c.lastMessage.createdAt then m else c.lastMessage;
      conversations[partnerId := c.(lastMessage := newest, unreadCount := c.unreadCount + unread)]
  }

  function GroupCounting(msgs: seq<Message>, caller: string): map<string, Conversation> {
    if |msgs| == 0 then map[] else CountingStep(GroupCounting(msgs[..|msgs| - 1], caller), msgs[|msgs| - 1], caller)
  }

  /** The corrected grouping has the same entries and last messages, and
      its count is the number of unread messages from the partner. */
  lemma {:induction false} GroupCountingCountsUnread(msgs: seq<Message>, caller: string, p: string)
    ensures GroupCounting(msgs, caller).Keys == Group(msgs, caller).Keys
    ensures p in GroupCounting(msgs, caller) ==>
      && GroupCounting(msgs, caller)[p].lastMessage == Group(msgs, caller)[p].lastMessage
      && GroupCounting(msgs, caller)[p].orderId == Group(msgs, caller)[p].orderId
      && GroupCounting(msgs, caller)[p].unreadCount == CountUnread(msgs, p, caller)
  {
    if |msgs| > 0 {
      var init := msgs[..|msgs| - 1];
      GroupCountingCountsUnread(init, caller, p);
      if p !in GroupCounting(init, caller) {
        UnreadCountIsZero(init, caller, p);
      }
    }
  }

  /** No entry, no message with that partner, so nothing unread from it. */
  lemma {:induction false} UnreadCountIsZero(msgs: seq<Message>, caller: string, p: string)
    requires p !in Group(msgs, caller)
    ensures CountUnread(msgs, p, caller) == 0
  {
    if |msgs| > 0 {
      UnreadCountIsZero(msgs[..|msgs| - 1], caller, p);
    }
  }

  // ---------------------------------------------------------------------
  // Marking as read
  // ---------------------------------------------------------------------

  /** The messages after the targeted update: those listed and received by
      the caller become read; every other message is unchanged. */
  function MarkedRead(messages: map<string, Message>, ids: seq<string>, caller: string): (after: map<string, Message>)
    ensures after.Keys == messages.Keys
    ensures forall id :: id in messages ==>
      after[id] == if id in ids && messages[id].receiverId == caller then messages[id].(read := true) else messages[id]
  {
    map id | id in messages :: if id in ids && messages[id].receiverId == caller then messages[id].(read := true) else messages[id]
  }

  /** Some listed message belongs to another receiver. */
  predicate SomeNotOwned(messages: map<string, Message>, ids: seq<string>, caller: string) {
    exists id :: id in ids && id in messages && messages[id].receiverId != caller
  }

  /** `markMessagesAsRead`: all or nothing. */
  method MarkMessagesAsRead(db: Database, caller: string, messageIds: Option<seq<string>>)
    returns (r: Result<(), Failure>)
    modifies db
    ensures db.orders == old(db.orders) && db.cars == old(db.cars) && db.users == old(db.users)
    ensures messageIds.None? || |messageIds.value| == 0 ==> r == Failure(ValidationError)
    ensures messageIds.Some? && |messageIds.value| > 0 && SomeNotOwned(old(db.messages), messageIds.value, caller) ==>
      r == Failure(Forbidden)
    ensures r.Success? <==> messageIds.Some? && |messageIds.value| > 0 && !SomeNotOwned(old(db.messages), messageIds.value, caller)
    ensures r.Success? ==> db.messages == MarkedRead(old(db.messages), messageIds.value, caller)
    ensures r.Failure? ==> db.messages == old(db.messages)
    ensures old(db.Valid()) ==> db.Valid()
  {
    if messageIds.None? || |messageIds.value| == 0 {
      return Failure(ValidationError);
    }
    var ids := messageIds.value;
    var fetched := set id | id in ids && id in db.messages;
    var notOwned := set id | id in fetched && db.messages[id].receiverId != caller;
    if notOwned != {} {
      return Failure(Forbidden);
    }
    assert !SomeNotOwned(db.messages, ids, caller) by {
      forall id | id in ids && id in db.messages
        ensures db.messages[id].receiverId == caller
      {
        assert id in fetched;
        assert db.messages[id].receiverId != caller ==> id in notOwned;
      }
    }
    db.messages := map id | id in db.messages :: if id in ids && db.messages[id].receiverId == caller then db.messages[id].(read := true) else db.messages[id];
    r := Success(());
  }

  /** After a successful call every listed message that exists is read, and
      marking the same list again changes nothing. */
  lemma MarkedReadIdempotent(messages: map<string, Message>, ids: seq<string>, caller: string)
    requires !SomeNotOwned(messages, ids, caller)
    ensures forall id :: id in ids && id in messages ==> MarkedRead(messages, ids, caller)[id].read
    ensures MarkedRead(MarkedRead(messages, ids, caller), ids, caller) == MarkedRead(messages, ids, caller)
  {
  }
}
