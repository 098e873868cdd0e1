/**
 * Model of hooks/useChat.ts: the chat-history state (`currentChat`, `messages`,
 * `loading`, `error`) and the operations `initializeChat`, `addMessage`,
 * `archiveChat`, `startNewChat` and the de-duplicating append of the real-time
 * subscription. Each call to the chat service (services/chat.service.ts) is an
 * input: either what the call resolves to, or a failure.
 */
module UseChat {

  import opened Common

  datatype ChatStatus = Active | Archived

  datatype SenderType = User | Bot

  /** A row of the `chats` table; `hasSessionData` says whether `session_data` was filled in. */
  datatype Chat = Chat(id: string, userId: Option<string>, status: ChatStatus, hasSessionData: bool)

  /** A row of the `messages` table (timestamp and metadata left out). */
  datatype Message = Message(id: string, chatId: string, content: string, senderType: SenderType)

  const NoActiveChat: string := "No hay chat activo"
  const SendFailed: string := "Error al enviar mensaje"
  const ArchiveFailed: string := "Error al archivar chat"
  const InitFailed: string := "Error al inicializar el chat"
  const NewChatFailed: string := "Error al crear nuevo chat"

  /** The chat `chatService.createChat(userId, sessionData)` inserts, given the id the store assigns:
      `user_id: userId || null`, `status: 'active'`. */
  function NewChat(id: string, userId: Option<string>, withSessionData: bool): (c: Chat)
    ensures c.status == Active && c.id == id
    ensures c.userId.Some? <==> Truthy(userId)
    ensures Truthy(userId) ==> c.userId == userId
    ensures c.hasSessionData == withSessionData
  {
    Chat(id, if Truthy(userId) then userId else None, Active, withSessionData)
  }

  /** `prev.some(msg => msg.id === id)`. */
  predicate HasId(messages: seq<Message>, id: string) {
    exists i :: 0 <= i < |messages| && messages[i].id == id
  }

  predicate UniqueIds(messages: seq<Message>) {
    forall i, j :: 0 <= i < j < |messages| ==> messages[i].id != messages[j].id
  }

  /** The real-time update `prev => prev.some(...) ? prev : [...prev, newMessage]`. */
  function Deliver(messages: seq<Message>, m: Message): (r: seq<Message>)
    // the list is kept as a prefix and at most the new message is added, at the end
    ensures |messages| <= |r| <= |messages| + 1 && r[..|messages|] == messages
    // afterwards the ids present are the earlier ones and the delivered one
    ensures forall id :: HasId(r, id) <==> HasId(messages, id) || id == m.id
    // a message whose id is present leaves the list as it was; otherwise it is appended as delivered
    ensures HasId(messages, m.id) ==> r == messages
    ensures !HasId(messages, m.id) ==> |r| == |messages| + 1 && r[|messages|] == m
  {
    if HasId(messages, m.id) then messages
    else
      var r := messages + [m];
      assert r[|messages|].id == m.id;
      assert forall id :: HasId(messages, id) ==> HasId(r, id) by {
        forall id | HasId(messages, id) ensures HasId(r, id) {
          var i :| 0 <= i < |messages| && messages[i].id == id;
          assert r[i].id == id;
        }
      }
      r
  }

  /** A run of real-time deliveries, in arrival order. */
  function DeliverAll(messages: seq<Message>, arrivals: seq<Message>): (r: seq<Message>)
    // deliveries only ever add at the end, at most one message each
    ensures |messages| <= |r| <= |messages| + |arrivals| && r[..|messages|] == messages
    decreases |arrivals|
  {
    if arrivals == [] then messages else DeliverAll(Deliver(messages, arrivals[0]), arrivals[1..])
  }

  /** The state of one `useChat` hook. */
  class ChatHook {
    const initialChatId: Option<string>
    const userId: Option<string>
    var currentChat: Option<Chat>
    var messages: seq<Message>
    var loading: bool
    var error: Option<string>

    /** The initial `useState` values. */
    constructor (initialChatId: Option<string>, userId: Option<string>)
      ensures this.initialChatId == initialChatId && this.userId == userId
      ensures currentChat == None && messages == [] && !loading && error == None
    {
      this.initialChatId := initialChatId;
      this.userId := userId;
      currentChat := None;
      messages := [];
      loading := false;
      error := None;
    }

    /** `initializeChat()`. `initialHistory` is the history of initialChatId (asked for only when
        that id is truthy), `createdId` the id of the created chat, `history` the history of it. */
    method InitializeChat(initialHistory: Outcome<seq<Message>>, createdId: Outcome<string>,
                          history: Outcome<seq<Message>>)
      modifies this
      ensures !loading
      // the error is reset at entry and set to the fixed text on any failure; the chat
      // becomes current once created, and the list holds the last history loaded
      ensures var reachedCreate := !(Truthy(initialChatId) && initialHistory.Rejected?);
        var created := reachedCreate && createdId.Resolved?;
        var loaded := created && history.Resolved?;
        && error == (if loaded then None else Some(InitFailed))
        && currentChat == (if created then Some(NewChat(createdId.value, userId, !Truthy(initialChatId)))
                           else old(currentChat))
        && messages == (if loaded then history.value
                        else if Truthy(initialChatId) && initialHistory.Resolved? then initialHistory.value
                        else old(messages))
    {
      loading := true;
      error := None;
      var chat: Chat;
      if Truthy(initialChatId) {
        if initialHistory.Rejected? {
          error := Some(InitFailed);
          loading := false;
          return;
        }
        messages := initialHistory.value;
        if createdId.Rejected? {
          error := Some(InitFailed);
          loading := false;
          return;
        }
        chat := NewChat(createdId.value, userId, false);
      } else {
        if createdId.Rejected? {
          error := Some(InitFailed);
          loading := false;
          return;
        }
        chat := NewChat(createdId.value, userId, true);
      }
      currentChat := Some(chat);
      if history.Rejected? {
        error := Some(InitFailed);
        loading := false;
        return;
      }
      messages := history.value;
      loading := false;
    }

    /** `addMessage(content, senderType)`; `storedId` is the id the store gives the inserted row,
        or a rejection. */
    method AddMessage(content: string, senderType: SenderType, storedId: Outcome<string>)
      returns (r: Result<Message>)
      modifies this`messages
      ensures currentChat.None? ==> r == Thrown(NoActiveChat) && messages == old(messages)
      ensures currentChat.Some? && storedId.Rejected? ==> r == Thrown(SendFailed) && messages == old(messages)
      ensures currentChat.Some? && storedId.Resolved? ==>
        && r == Ok(Message(storedId.value, currentChat.value.id, content, senderType))
        && messages == old(messages) + [r.value]
    {
      if currentChat.None? {
        return Thrown(NoActiveChat);
      }
      if storedId.Rejected? {
        return Thrown(SendFailed);
      }
      var message := Message(storedId.value, currentChat.value.id, content, senderType);
      messages := messages + [message];
      r := Ok(message);
    }

    /** `archiveChat()`; `updated` says whether the status update was stored. */
    method ArchiveChat(updated: bool) returns (r: Result<()>)
      modifies this`currentChat
      ensures old(currentChat).None? ==> r == Ok(()) && currentChat == None
      ensures old(currentChat).Some? && !updated ==> r == Thrown(ArchiveFailed) && currentChat == old(currentChat)
      ensures old(currentChat).Some? && updated ==>
        r == Ok(()) && currentChat == Some(old(currentChat).value.(status := Archived))
    {
      if currentChat.None? {
        return Ok(());
      }
      if !updated {
        return Thrown(ArchiveFailed);
      }
      currentChat := Some(currentChat.value.(status := Archived));
      r := Ok(());
    }

    /** `startNewChat()`; `archived` says whether archiving the active chat was stored (asked for
        only when there is one), `createdId` is the id of the new chat or a rejection. */
    method StartNewChat(archived: bool, createdId: Outcome<string>)
      returns (archiveRequested: bool)
      modifies this`currentChat, this`messages, this`loading, this`error
      // the store is asked to archive exactly an active current chat
      ensures archiveRequested <==> old(currentChat).Some? && old(currentChat).value.status == Active
      ensures !loading
      ensures var failed := (archiveRequested && !archived) || createdId.Rejected?;
        if failed then
          error == Some(NewChatFailed) && currentChat == old(currentChat) && messages == old(messages)
        else
          error == None && currentChat == Some(NewChat(createdId.value, userId, true)) && messages == []
    {
      loading := true;
      error := None;
      archiveRequested := currentChat.Some? && currentChat.value.status == Active;
      if archiveRequested && !archived {
        error := Some(NewChatFailed);
        loading := false;
        return;
      }
      if createdId.Rejected? {
        error := Some(NewChatFailed);
        loading := false;
        return;
      }
      currentChat := Some(NewChat(createdId.value, userId, true));
      messages := [];
      loading := false;
    }

    /** A message pushed by the real-time subscription, which exists only while there is a
        current chat. */
    method Receive(m: Message)
      modifies this`messages
      ensures messages == if currentChat.Some? then Deliver(old(messages), m) else old(messages)
    {
      if currentChat.Some? {
        if HasId(messages, m.id) {
          return;
        }
        messages := messages + [m];
      }
    }
  }

  // ---------------------------------------------------------------------------
  // Lemmas

  /** Delivering the same message twice equals delivering it once. */
  lemma DeliverIdempotent(messages: seq<Message>, m: Message)
    ensures Deliver(Deliver(messages, m), m) == Deliver(messages, m)
  {
  }

  /** Deliveries keep the ids of the list distinct. */
  lemma DeliverKeepsIdsUnique(messages: seq<Message>, m: Message)
    requires UniqueIds(messages)
    ensures UniqueIds(Deliver(messages, m))
  {
  }

  /** After a run of deliveries every delivered id is present, and earlier ids stay. */
  lemma {:induction false} DeliverAllHasIds(messages: seq<Message>, arrivals: seq<Message>)
    ensures forall id :: HasId(messages, id) ==> HasId(DeliverAll(messages, arrivals), id)
    ensures forall k :: 0 <= k < |arrivals| ==> HasId(DeliverAll(messages, arrivals), arrivals[k].id)
    decreases |arrivals|
  {
    if arrivals != [] {
      DeliverAllHasIds(Deliver(messages, arrivals[0]), arrivals[1..]);
      forall k | 0 <= k < |arrivals| ensures HasId(DeliverAll(messages, arrivals), arrivals[k].id) {
        if k > 0 {
          assert arrivals[k] == arrivals[1..][k - 1];
        }
      }
    }
  }

  /** Replaying a run of deliveries changes nothing: every id is already there. */
  lemma {:induction false} DeliverAllOfPresentIds(messages: seq<Message>, arrivals: seq<Message>)
    requires forall k :: 0 <= k < |arrivals| ==> HasId(messages, arrivals[k].id)
    ensures DeliverAll(messages, arrivals) == messages
  {
    if arrivals != [] {
      assert HasId(messages, arrivals[0].id);
      DeliverAllOfPresentIds(messages, arrivals[1..]);
    }
  }

  lemma DeliverAllTwice(messages: seq<Message>, arrivals: seq<Message>)
    ensures DeliverAll(DeliverAll(messages, arrivals), arrivals) == DeliverAll(messages, arrivals)
  {
    DeliverAllHasIds(messages, arrivals);
    DeliverAllOfPresentIds(DeliverAll(messages, arrivals), arrivals);
  }

  /** A run of deliveries keeps the ids distinct. */
  lemma {:induction false} DeliverAllKeepsIdsUnique(messages: seq<Message>, arrivals: seq<Message>)
    requires UniqueIds(messages)
    ensures UniqueIds(DeliverAll(messages, arrivals))
    decreases |arrivals|
  {
    if arrivals != [] {
      DeliverKeepsIdsUnique(messages, arrivals[0]);
      DeliverAllKeepsIdsUnique(Deliver(messages, arrivals[0]), arrivals[1..]);
    }
  }

  /** The list can end with two entries of one id: a delivery of a message followed by the
      append of the same stored row, as when the real-time push is handled before `addMessage`
      resolves. The check at the delivery does not protect the later append. */
  lemma AppendAfterDeliveryDuplicates(messages: seq<Message>, m: Message)
    ensures var r := Deliver(messages, m) + [m];
      !UniqueIds(r) && HasId(r, m.id)
  {
    var d := Deliver(messages, m);
    var i :| 0 <= i < |d| && d[i].id == m.id;
    assert (d + [m])[i].id == (d + [m])[|d|].id;
  }
}
