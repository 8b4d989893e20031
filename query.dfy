/**
 * The bookkeeping of the assistant-side query dispatcher: the chat-to-thread map,
 * reply extraction from a finished run, one cycle of a per-chat handler, the
 * handler-spawn rule of the dispatch loop, and shutdown.
 * Remote calls are replaced by their results, passed in as parameters: the id of a
 * newly created thread, the status of a run, and the messages the run produced.
 */
module Query {
  import opened Wrappers
  import opened AssistantUtils

  type ThreadId = string
  type MessageId = string

  /** The first content block of an assistant message: text with its annotations, or anything else (an image). */
  datatype ContentBlock = TextBlock(value: string, annotations: seq<Annotation>) | OtherBlock

  datatype Message = Message(id: MessageId, content: seq<ContentBlock>)

  /** The pair `(response, last_id)` returned for a completed run. */
  datatype Reply = Reply(response: string, lastId: Option<MessageId>)

  predicate HasText(m: Message)
  {
    |m.content| > 0 && m.content[0].TextBlock?
  }

  /** The reply text a message contributes once its placeholders are stripped. */
  function TextOf(m: Message): (r: string)
    requires HasText(m)
    ensures |r| <= |m.content[0].value|
    ensures m.content[0].annotations == [] ==> r == m.content[0].value
  {
    StripAnnotations(m.content[0].value, m.content[0].annotations)
  }

  /**
   * The loop over the listed messages: every message moves `last_id`; a text message
   * replaces `response`; a message of another kind is skipped; a message with no
   * content at all stops the loop with `IndexError`. If no message set `response`,
   * returning it raises `UnboundLocalError`.
   */
  function ScanMessages(messages: seq<Message>, response: Option<string>, lastId: Option<MessageId>): (r: Result<Option<Reply>>)
    ensures r.Ok? ==> r.value.Some?
    ensures r.Ok? && messages != [] ==> r.value.value.lastId == Some(messages[|messages| - 1].id)
    ensures r.Err? ==> r.error == IndexError || r.error == UnboundLocalError
    decreases |messages|
  {
    if messages == [] then
      if response.None? then Err(UnboundLocalError) else Ok(Some(Reply(response.value, lastId)))
    else
      var m := messages[0];
      if |m.content| == 0 then Err(IndexError)
      else if m.content[0].TextBlock? then ScanMessages(messages[1..], Some(TextOf(m)), Some(m.id))
      else ScanMessages(messages[1..], response, Some(m.id))
  }

  /** `get_response`: `None` unless the run completed, otherwise the scan of the run's messages. */
  function GetResponse(status: string, messages: seq<Message>, lastId: Option<MessageId>): (r: Result<Option<Reply>>)
    ensures status != "completed" ==> r == Ok(None)
    ensures r.Ok? && r.value.Some? ==> status == "completed" && messages != []
  {
    if status == "completed" then ScanMessages(messages, None, lastId) else Ok(None)
  }

  /** The last listed message whose first block is text. */
  predicate IsLastText(messages: seq<Message>, k: int)
  {
    0 <= k < |messages| && HasText(messages[k]) &&
    forall j :: k < j < |messages| ==> !HasText(messages[j])
  }

  predicate AllHaveContent(messages: seq<Message>)
  {
    forall i :: 0 <= i < |messages| ==> |messages[i].content| > 0
  }

  lemma {:induction false} ScanWithoutText(messages: seq<Message>, response: Option<string>, lastId: Option<MessageId>)
    requires AllHaveContent(messages)
    requires forall j :: 0 <= j < |messages| ==> !HasText(messages[j])
    ensures ScanMessages(messages, response, lastId) ==
      (if response.None? then Err(UnboundLocalError)
       else Ok(Some(Reply(response.value, if messages == [] then lastId else Some(messages[|messages| - 1].id)))))
    decreases |messages|
  {
    if messages != [] {
      ScanWithoutText(messages[1..], response, Some(messages[0].id));
    }
  }

  lemma {:induction false} ScanFindsLastText(messages: seq<Message>, response: Option<string>, lastId: Option<MessageId>, k: int)
    requires AllHaveContent(messages)
    requires IsLastText(messages, k)
    ensures ScanMessages(messages, response, lastId) ==
      Ok(Some(Reply(TextOf(messages[k]), Some(messages[|messages| - 1].id))))
    decreases |messages|
  {
    var m := messages[0];
    if k == 0 {
      ScanWithoutText(messages[1..], Some(TextOf(m)), Some(m.id));
    } else if m.content[0].TextBlock? {
      ScanFindsLastText(messages[1..], Some(TextOf(m)), Some(m.id), k - 1);
    } else {
      ScanFindsLastText(messages[1..], response, Some(m.id), k - 1);
    }
  }

  lemma {:induction false} ScanStopsAtEmptyContent(messages: seq<Message>, response: Option<string>, lastId: Option<MessageId>, i: int)
    requires 0 <= i < |messages| && |messages[i].content| == 0
    ensures ScanMessages(messages, response, lastId) == Err(IndexError)
    decreases |messages|
  {
    var m := messages[0];
    if i > 0 && |m.content| > 0 {
      if m.content[0].TextBlock? {
        ScanStopsAtEmptyContent(messages[1..], Some(TextOf(m)), Some(m.id), i - 1);
      } else {
        ScanStopsAtEmptyContent(messages[1..], response, Some(m.id), i - 1);
      }
    }
  }

  /**
   * On a completed run whose messages all have content, the reply is the stripped
   * text of the last text message and `last_id` the id of the last listed message.
   */
  lemma CompletedReply(messages: seq<Message>, lastId: Option<MessageId>, k: int)
    requires AllHaveContent(messages) && IsLastText(messages, k)
    ensures GetResponse("completed", messages, lastId) ==
      Ok(Some(Reply(TextOf(messages[k]), Some(messages[|messages| - 1].id))))
  {
    ScanFindsLastText(messages, None, lastId, k);
  }

  /** A completed run without any text message (in particular, with no message) raises `UnboundLocalError`. */
  lemma CompletedWithoutText(messages: seq<Message>, lastId: Option<MessageId>)
    requires AllHaveContent(messages)
    requires forall j :: 0 <= j < |messages| ==> !HasText(messages[j])
    ensures GetResponse("completed", messages, lastId) == Err(UnboundLocalError)
  {
    ScanWithoutText(messages, None, lastId);
  }

  /** A listed message with an empty content list raises `IndexError`. */
  lemma CompletedWithEmptyContent(messages: seq<Message>, lastId: Option<MessageId>, i: int)
    requires 0 <= i < |messages| && |messages[i].content| == 0
    ensures GetResponse("completed", messages, lastId) == Err(IndexError)
  {
    ScanStopsAtEmptyContent(messages, None, lastId, i);
  }

  class QueryDispatcher {
    /** chat id -> assistant thread id; keys are only ever added (each call below runs without interleaving) */
    var threads: map<ChatId, ThreadId>
    /** the incoming `(chat_id, text)` queue */
    var queries: seq<(ChatId, string)>
    /** the outgoing `(chat_id, response)` queue */
    var responses: seq<(ChatId, string)>
    /** chats with an active handler; nothing in the dispatcher ever adds to it */
    var chats: set<ChatId>
    /** handler tasks not yet done */
    var handlers: set<TaskId>
    /** tasks that have been asked to cancel */
    var cancelled: set<TaskId>
    var running: bool
    /** the chat each spawned handler serves */
    ghost var handlerChat: map<TaskId, ChatId>

    constructor ()
      ensures threads == map[] && queries == [] && responses == [] && chats == {}
      ensures handlers == {} && cancelled == {} && !running && handlerChat == map[]
    {
      threads := map[];
      queries := [];
      responses := [];
      chats := {};
      handlers := {};
      cancelled := {};
      running := false;
      handlerChat := map[];
    }

    /** `qd.queries.put_nowait((chat, query))` as done by the query forwarder. */
    method Submit(chat: ChatId, text: string)
      modifies this`queries
      ensures queries == old(queries) + [(chat, text)]
    {
      queries := queries + [(chat, text)];
    }

    /** `create_thread`: record the thread the backend created for `chat`. */
    method CreateThread(chat: ChatId, newThread: ThreadId) returns (thread: ThreadId)
      modifies this`threads
      ensures thread == newThread
      ensures threads == old(threads)[chat := newThread]
    {
      threads := threads[chat := newThread];
      thread := newThread;
    }

    /**
     * `thread_message`: the chat's existing thread, or a new one (`newThread`) when
     * the chat has none yet. Appending the message itself is a remote call.
     */
    method ThreadMessage(chat: ChatId, newThread: ThreadId) returns (thread: ThreadId)
      modifies this`threads
      ensures chat in threads && thread == threads[chat]
      ensures chat in old(threads) ==> threads == old(threads)
      ensures chat !in old(threads) ==> threads == old(threads)[chat := newThread]
      ensures forall c :: c in old(threads) ==> c in threads && threads[c] == old(threads)[c]
    {
      if chat in threads {
        thread := threads[chat];
      } else {
        thread := CreateThread(chat, newThread);
      }
    }

    /**
     * One iteration of `handle_user` for `chat`: post `query` to the chat's thread,
     * run it (its outcome is `status` and `messages`), and push the reply if there is one.
     * The new `last_id` is returned; an exception from `get_response` ends the handler.
     */
    method HandleUserStep(chat: ChatId, query: string, lastId: Option<MessageId>, newThread: ThreadId,
                          status: string, messages: seq<Message>) returns (r: Result<Option<MessageId>>)
      modifies this`threads, this`responses
      ensures chat in threads
      ensures forall c :: c in old(threads) ==> c in threads && threads[c] == old(threads)[c]
      ensures GetResponse(status, messages, lastId).Err? ==>
        r == Err(GetResponse(status, messages, lastId).error) && responses == old(responses)
      ensures GetResponse(status, messages, lastId) == Ok(None) ==>
        r == Ok(lastId) && responses == old(responses)
      ensures GetResponse(status, messages, lastId).Ok? && GetResponse(status, messages, lastId).value.Some? ==>
        var reply := GetResponse(status, messages, lastId).value.value;
        r == Ok(reply.lastId) && responses == old(responses) + [(chat, reply.response)]
    {
      var thread := ThreadMessage(chat, newThread);
      var result := GetResponse(status, messages, lastId);
      match result
      case Err(e) =>
        r := Err(e);
      case Ok(None) =>
        r := Ok(lastId);
      case Ok(Some(reply)) =>
        responses := responses + [(chat, reply.response)];
        r := Ok(reply.lastId);
    }

    /** The start of `run`. */
    method Start()
      modifies this`running
      ensures running
    {
      running := true;
    }

    /**
     * One iteration of the loop in `run`. With an empty queue the wait times out and
     * nothing changes; otherwise the head query is taken and, as `chats` is never
     * written, a handler task `task` is spawned for it. The iteration is taken as
     * uninterrupted: a `stop()` during the wait for the queue is not modelled.
     */
    method RunStep(task: TaskId) returns (spawned: bool)
      requires task !in handlers && task !in handlerChat
      modifies this`queries, this`handlers, this`handlerChat
      ensures old(queries) == [] ==> !spawned && queries == old(queries) && handlers == old(handlers)
      ensures old(queries) != [] ==> queries == old(queries)[1..]
      ensures old(queries) != [] ==> (spawned <==> old(queries)[0].0 !in chats)
      ensures spawned ==> handlers == old(handlers) + {task} && handlerChat == old(handlerChat)[task := old(queries)[0].0]
      ensures !spawned ==> handlers == old(handlers) && handlerChat == old(handlerChat)
    {
      spawned := false;
      if queries != [] {
        var (chat, query) := queries[0];
        queries := queries[1..];
        if chat !in chats {
          handlers := handlers + {task};
          handlerChat := handlerChat[task := chat];
          spawned := true;
        }
      }
    }

    /** The done-callback `handlers.discard` of a handler task. */
    method HandlerDone(task: TaskId)
      modifies this`handlers
      ensures handlers == old(handlers) - {task}
    {
      handlers := handlers - {task};
    }

    /** `stop`: ask every live handler to cancel, then clear `running`. */
    method Stop()
      modifies this`cancelled, this`running
      ensures cancelled == old(cancelled) + handlers
      ensures !running
    {
      var pending := handlers;
      while pending != {}
        invariant pending <= handlers
        invariant cancelled == old(cancelled) + (handlers - pending)
        decreases pending
      {
        var t :| t in pending;
        cancelled := cancelled + {t};
        pending := pending - {t};
      }
      running := false;
    }
  }

  /**
   * Two queries from chat 42 queued back to back each spawn a handler: the
   * per-chat check in `run` never excludes anything because `chats` stays empty.
   */
  method SameChatSpawnsTwice() returns (qd: QueryDispatcher)
    ensures qd.handlers == {1, 2}
    ensures qd.handlerChat == map[1 := 42, 2 := 42]
  {
    qd := new QueryDispatcher();
    qd.Start();
    qd.Submit(42, "hello");
    qd.Submit(42, "again");
    var first := qd.RunStep(1);
    var second := qd.RunStep(2);
  }
}
