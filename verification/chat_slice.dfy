/**
 * The chat store: the ordered conversation list, the message list of every
 * conversation (keyed by conversation id), the current conversation and the
 * `loading`, `error` and `socketConnected` flags, with every reducer of the
 * chat slice. Thunk results (REST payloads, socket events) are inputs.
 */
module ChatSlice {
  import opened Common
  import ListOps

  datatype Message = Message(
    id: Option<Id>,           // server id; missing until the server has assigned one
    tempId: Option<string>,   // local id of an optimistic copy
    conversationId: Id,
    senderId: Id,
    content: string,
    kind: string,             // the `type` field, 'TEXT' by default
    status: string,
    timestamp: string)

  datatype Conversation = Conversation(id: Id, participants: seq<Id>, lastMessage: Option<Message>)

  /** The asynchronous requests of the chat slice that have a rejected case. */
  datatype Request = FetchConversations | FetchMessages | SendMessage | CreateConversation

  /** The fixed text each rejected case falls back to when the rejection carries no payload. */
  function Fallback(req: Request): (r: string)
    ensures |r| > 0
  {
    match req
    case FetchConversations => "Failed to fetch conversations"
    case FetchMessages => "Failed to fetch messages"
    case SendMessage => "Failed to send message"
    case CreateConversation => "Failed to create conversation"
  }
  /** No two requests share a fallback text, so a stored error names the request that failed. */
  lemma FallbackIdentifiesRequest(a: Request, b: Request)
    ensures Fallback(a) == Fallback(b) ==> a == b
  {
  }


  /** `conversations.findIndex(conv => conv.id === cid)` */
  function ConversationIndex(convs: seq<Conversation>, cid: Id): (r: int)
    ensures -1 <= r < |convs|
    ensures r == -1 <==> forall k :: 0 <= k < |convs| ==> convs[k].id != cid
    ensures 0 <= r ==> convs[r].id == cid && forall k :: 0 <= k < r ==> convs[k].id != cid
  {
    ListOps.FindIndex(convs, (c: Conversation) => c.id == cid)
  }

  /** JavaScript truthiness of a `tempId`: present and not the empty string. */
  predicate Truthy(t: Option<string>) {
    t.Some? && t.value != ""
  }

  /**
   * The test `sendMessage.fulfilled` uses to find the stored copy of a
   * confirmed message: the same id, or the same truthy `tempId`. An absent or
   * empty `tempId` on the stored copy never matches by itself.
   */
  function SameMessage(stored: Message, m: Message): (r: bool)
    ensures stored.id == m.id ==> r
    ensures !Truthy(stored.tempId) ==> (r <==> stored.id == m.id)
    ensures Truthy(stored.tempId) && stored.tempId == m.tempId ==> r
    ensures r && stored.id != m.id ==> Truthy(m.tempId) && m.tempId == stored.tempId
  {
    stored.id == m.id || (Truthy(stored.tempId) && stored.tempId == m.tempId)
  }

  /** The message list of `cid`, or the empty list when there is none. */
  function ListOf(msgs: map<Id, seq<Message>>, cid: Id): seq<Message> {
    if cid in msgs then msgs[cid] else []
  }

  /**
   * The message part of `receiveMessage`: push onto the conversation's list,
   * or start a one-element list. There is no duplicate check.
   */
  function AppendMessage(msgs: map<Id, seq<Message>>, m: Message): (r: map<Id, seq<Message>>)
    ensures r.Keys == msgs.Keys + {m.conversationId}
    ensures |r[m.conversationId]| == |ListOf(msgs, m.conversationId)| + 1
    ensures r[m.conversationId][..|ListOf(msgs, m.conversationId)|] == ListOf(msgs, m.conversationId)
    ensures r[m.conversationId][|ListOf(msgs, m.conversationId)|] == m
    ensures forall k :: k in msgs && k != m.conversationId ==> r[k] == msgs[k]
  {
    var cid := m.conversationId;
    if cid in msgs then msgs[cid := msgs[cid] + [m]] else msgs[cid := [m]]
  }

  /**
   * The conversation part of `receiveMessage` and `sendMessage.fulfilled`:
   * when the message's conversation is listed, set its `lastMessage` and move
   * it to index 0; otherwise the list is unchanged.
   */
  function BringToTop(convs: seq<Conversation>, m: Message): (r: seq<Conversation>)
    ensures |r| == |convs|
    ensures ConversationIndex(convs, m.conversationId) == -1 ==> r == convs
    ensures 0 <= ConversationIndex(convs, m.conversationId) ==>
      var i := ConversationIndex(convs, m.conversationId);
      && r[0] == convs[i].(lastMessage := Some(m))
      && (forall k :: 0 <= k < i ==> r[k + 1] == convs[k])
      && (forall k :: i < k < |convs| ==> r[k] == convs[k])
  {
    var i := ConversationIndex(convs, m.conversationId);
    if i == -1 then convs
    else ListOps.MoveToFront(convs[i := convs[i].(lastMessage := Some(m))], i)
  }

  /**
   * The message-list step of `sendMessage.fulfilled` on an existing list:
   * replace the first stored copy of `m` in place, otherwise push `m`.
   */
  function UpsertMessage(list: seq<Message>, m: Message): (r: seq<Message>)
    ensures var i := ListOps.FindIndex(list, (s: Message) => SameMessage(s, m));
      && (i == -1 ==> r == list + [m])
      && (0 <= i ==> |r| == |list| && r[i] == m
                     && forall k :: 0 <= k < |list| && k != i ==> r[k] == list[k])
  {
    var i := ListOps.FindIndex(list, (s: Message) => SameMessage(s, m));
    if i == -1 then list + [m] else list[i := m]
  }

  /** The message part of `sendMessage.fulfilled`. */
  function ConfirmMessage(msgs: map<Id, seq<Message>>, m: Message): (r: map<Id, seq<Message>>)
    ensures r.Keys == msgs.Keys + {m.conversationId}
    ensures m.conversationId !in msgs ==> r[m.conversationId] == [m]
    ensures m.conversationId in msgs ==> r[m.conversationId] == UpsertMessage(msgs[m.conversationId], m)
    ensures forall k :: k in msgs && k != m.conversationId ==> r[k] == msgs[k]
  {
    var cid := m.conversationId;
    if cid in msgs then msgs[cid := UpsertMessage(msgs[cid], m)] else msgs[cid := [m]]
  }

  /** `list.findIndex(msg => msg.id === messageId)` followed by setting that message's `status`. */
  function SetStatusInList(list: seq<Message>, messageId: Option<Id>, status: string): (r: seq<Message>)
    ensures |r| == |list|
    ensures (forall k :: 0 <= k < |list| ==> list[k].id != messageId) ==> r == list
    ensures forall k :: 0 <= k < |list| ==> r[k] == list[k] || r[k] == list[k].(status := status)
    ensures var i := ListOps.FindIndex(list, (msg: Message) => msg.id == messageId);
      && (0 <= i ==> r[i] == list[i].(status := status))
      && (forall k :: 0 <= k < |list| && k != i ==> r[k] == list[k])
  {
    ListOps.UpdateFirst(list, (msg: Message) => msg.id == messageId,
                        (msg: Message) => msg.(status := status))
  }

  /** The specification of `updateMessageStatus`: every conversation's list, updated independently. */
  function StatusUpdated(msgs: map<Id, seq<Message>>, messageId: Option<Id>, status: string): (r: map<Id, seq<Message>>)
    ensures r.Keys == msgs.Keys
    ensures forall k :: k in msgs ==> |r[k]| == |msgs[k]|
    ensures forall k :: k in msgs ==> r[k] == SetStatusInList(msgs[k], messageId, status)
  {
    map k | k in msgs :: SetStatusInList(msgs[k], messageId, status)
  }

  /**
   * Reconciling an optimistic copy: when the first stored message that
   * `SameMessage` picks out is one at `i` carrying the confirmed message's
   * truthy `tempId`, the confirmation replaces it in place and the
   * conversation's list keeps its length.
   */
  lemma ConfirmReplacesOptimisticCopy(msgs: map<Id, seq<Message>>, m: Message, i: int)
    requires m.conversationId in msgs && 0 <= i < |msgs[m.conversationId]|
    requires Truthy(msgs[m.conversationId][i].tempId) && msgs[m.conversationId][i].tempId == m.tempId
    requires forall j :: 0 <= j < i ==> !SameMessage(msgs[m.conversationId][j], m)
    ensures ConfirmMessage(msgs, m)[m.conversationId] == msgs[m.conversationId][i := m]
  {
    var list := msgs[m.conversationId];
    assert SameMessage(list[i], m);
    assert ListOps.FindIndex(list, (s: Message) => SameMessage(s, m)) == i;
  }

  /** `receiveMessage` never deduplicates: the message is counted once more than before. */
  lemma ReceiveNeverDeduplicates(msgs: map<Id, seq<Message>>, m: Message)
    ensures multiset(AppendMessage(msgs, m)[m.conversationId])
         == multiset(ListOf(msgs, m.conversationId)) + multiset{m}
  {
    var old_ := ListOf(msgs, m.conversationId);
    var r := AppendMessage(msgs, m)[m.conversationId];
    assert r == old_ + [m];
  }

  /** A status event for an id that no stored message carries changes no list. */
  lemma UnknownStatusIdIsNoOp(msgs: map<Id, seq<Message>>, messageId: Option<Id>, status: string)
    requires forall k, j :: k in msgs && 0 <= j < |msgs[k]| ==> msgs[k][j].id != messageId
    ensures StatusUpdated(msgs, messageId, status) == msgs
  {
    var r := StatusUpdated(msgs, messageId, status);
    forall k | k in msgs ensures r[k] == msgs[k] {
      assert forall j :: 0 <= j < |msgs[k]| ==> msgs[k][j].id != messageId;
    }
  }

  /**
   * The socket echo of a sent message arriving before the REST confirmation:
   * the confirmation finds the echoed copy and replaces it, so the message is
   * stored once.
   */
  lemma EchoThenConfirmStoresOnce(msgs: map<Id, seq<Message>>, m: Message)
    requires forall j :: 0 <= j < |ListOf(msgs, m.conversationId)| ==> !SameMessage(ListOf(msgs, m.conversationId)[j], m)
    ensures ConfirmMessage(AppendMessage(msgs, m), m) == AppendMessage(msgs, m)
  {
    var before := ListOf(msgs, m.conversationId);
    var echoed := AppendMessage(msgs, m);
    var list := echoed[m.conversationId];
    assert list == before + [m];
    var i := ListOps.FindIndex(list, (s: Message) => SameMessage(s, m));
    assert SameMessage(list[|before|], m);
    assert forall k :: 0 <= k < |before| ==> list[k] == before[k];
    assert i == |before|;
    assert UpsertMessage(list, m) == list;
  }

  /**
   * The REST confirmation arriving before the socket echo: the echo is
   * appended again, so the list ends with two copies of the message.
   */
  lemma ConfirmThenEchoStoresTwice(msgs: map<Id, seq<Message>>, m: Message)
    requires forall j :: 0 <= j < |ListOf(msgs, m.conversationId)| ==> !SameMessage(ListOf(msgs, m.conversationId)[j], m)
    ensures AppendMessage(ConfirmMessage(msgs, m), m)[m.conversationId]
         == ListOf(msgs, m.conversationId) + [m, m]
  {
    var before := ListOf(msgs, m.conversationId);
    if m.conversationId in msgs {
      assert UpsertMessage(before, m) == before + [m];
    }
  }

  /** Bringing the same message's conversation to the top twice is the same as once. */
  lemma BringToTopIdempotent(convs: seq<Conversation>, m: Message)
    ensures BringToTop(BringToTop(convs, m), m) == BringToTop(convs, m)
  {
    var once := BringToTop(convs, m);
    if ConversationIndex(convs, m.conversationId) != -1 {
      assert ConversationIndex(once, m.conversationId) == 0;
      assert once[0 := once[0].(lastMessage := Some(m))] == once;
      assert ListOps.MoveToFront(once, 0) == once;
    }
  }

  /** A non-empty key set has a member to visit next. */
  lemma NonEmptyHasKey(keys: set<Id>)
    requires keys != {}
    ensures exists k :: k in keys
  {
    if forall k :: k !in keys {
      assert false;
    }
  }

  /**
   * The `forEach` loop of `updateMessageStatus`: visit each conversation's
   * list once and set the status of its first message with the id.
   */
  method UpdateEveryList(msgs: map<Id, seq<Message>>, messageId: Option<Id>, status: string)
    returns (updated: map<Id, seq<Message>>)
    ensures updated == StatusUpdated(msgs, messageId, status)
  {
    updated := msgs;
    var pending := msgs.Keys;
    while pending != {}
      invariant pending <= msgs.Keys
      invariant updated.Keys == msgs.Keys
      invariant forall k :: k in pending ==> updated[k] == msgs[k]
      invariant forall k :: k in msgs && k !in pending ==>
        updated[k] == SetStatusInList(msgs[k], messageId, status)
      decreases pending
    {
      NonEmptyHasKey(pending);
      var k :| k in pending;  // `forEach` visits the keys in an order the model leaves open
      updated := updated[k := SetStatusInList(updated[k], messageId, status)];
      pending := pending - {k};
    }
    forall k | k in msgs ensures updated[k] == StatusUpdated(msgs, messageId, status)[k] {
      assert k !in pending;
    }
  }

  /** Everything the chat slice holds, as one value. */
  datatype ChatState = ChatState(
    conversations: seq<Conversation>,
    currentConversation: Option<Conversation>,
    messages: map<Id, seq<Message>>,
    loading: bool,
    error: Option<string>,
    socketConnected: bool)

  /** The chat slice; each method is one reducer case and updates the fields in place. */
  class ChatStore {
    var conversations: seq<Conversation>
    var currentConversation: Option<Conversation>
    var messages: map<Id, seq<Message>>
    var loading: bool
    var error: Option<string>
    var socketConnected: bool

    function State(): ChatState
      reads this
    {
      ChatState(conversations, currentConversation, messages, loading, error, socketConnected)
    }

    /** `initialState` */
    constructor ()
      ensures State() == ChatState([], None, map[], false, None, false)
    {
      conversations := [];
      currentConversation := None;
      messages := map[];
      loading := false;
      error := None;
      socketConnected := false;
    }

    method SetCurrentConversation(c: Option<Conversation>)
      modifies this
      ensures State() == old(State()).(currentConversation := c)
    {
      currentConversation := c;
    }

    method ClearChatError()
      modifies this
      ensures State() == old(State()).(error := None)
    {
      error := None;
    }

    /** A message pushed by the socket. */
    method ReceiveMessage(m: Message)
      modifies this
      ensures messages == AppendMessage(old(messages), m)
      ensures conversations == BringToTop(old(conversations), m)
      ensures State() == old(State()).(messages := messages, conversations := conversations)
    {
      messages := AppendMessage(messages, m);
      conversations := BringToTop(conversations, m);
    }

    /** A status event from the socket: every conversation's list is searched. */
    method UpdateMessageStatus(messageId: Option<Id>, status: string)
      modifies this
      ensures messages == StatusUpdated(old(messages), messageId, status)
      ensures State() == old(State()).(messages := messages)
    {
      messages := UpdateEveryList(messages, messageId, status);
    }

    method ConnectSocketFulfilled()
      modifies this
      ensures State() == old(State()).(socketConnected := true)
    {
      socketConnected := true;
    }

    method DisconnectSocketFulfilled()
      modifies this
      ensures State() == old(State()).(socketConnected := false)
    {
      socketConnected := false;
    }

    /** Every pending case clears `error`; all but `sendMessage` also set `loading`. */
    method Pending(req: Request)
      modifies this
      ensures error == None
      ensures loading == (if req == SendMessage then old(loading) else true)
      ensures State() == old(State()).(error := None, loading := loading)
    {
      if req != SendMessage {
        loading := true;
      }
      error := None;
    }

    /** Every rejected case records the error; all but `sendMessage` also clear `loading`. */
    method Rejected(req: Request, payload: Option<ErrorPayload>)
      modifies this
      ensures error == RejectedError(payload, Fallback(req))
      ensures loading == (if req == SendMessage then old(loading) else false)
      ensures State() == old(State()).(error := error, loading := loading)
    {
      if req != SendMessage {
        loading := false;
      }
      error := RejectedError(payload, Fallback(req));
    }

    /** The fetched list replaces the conversation list wholesale. */
    method FetchConversationsFulfilled(payload: seq<Conversation>)
      modifies this
      ensures State() == old(State()).(loading := false, conversations := payload)
    {
      loading := false;
      conversations := payload;
    }

    /** The fetched messages replace only that conversation's list. */
    method FetchMessagesFulfilled(conversationId: Id, payload: seq<Message>)
      modifies this
      ensures messages.Keys == old(messages).Keys + {conversationId}
      ensures messages[conversationId] == payload
      ensures forall k :: k in old(messages) && k != conversationId ==> messages[k] == old(messages)[k]
      ensures State() == old(State()).(loading := false, messages := messages)
    {
      loading := false;
      messages := messages[conversationId := payload];
    }

    /** The server's copy of a sent message replaces or joins the list, then its conversation moves up. */
    method SendMessageFulfilled(m: Message)
      modifies this
      ensures messages == ConfirmMessage(old(messages), m)
      ensures conversations == BringToTop(old(conversations), m)
      ensures State() == old(State()).(messages := messages, conversations := conversations)
    {
      messages := ConfirmMessage(messages, m);
      conversations := BringToTop(conversations, m);
    }

    /** A created conversation goes first, becomes current and gets an empty message list. */
    method CreateConversationFulfilled(c: Conversation)
      modifies this
      ensures conversations == [c] + old(conversations)
      ensures currentConversation == Some(c)
      ensures messages == old(messages)[c.id := []]
      ensures State() == old(State()).(loading := false, conversations := conversations,
                                       currentConversation := Some(c), messages := messages)
    {
      loading := false;
      conversations := [c] + conversations;
      currentConversation := Some(c);
      messages := messages[c.id := []];
    }
  }
}
