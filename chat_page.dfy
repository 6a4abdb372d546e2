/**
 * The chat page's state and handlers (client/app/chat/page.tsx) without the
 * markup: the React state variables are fields of `ChatPage`, the handlers are
 * methods that update them and write to the browser database. Fresh message
 * and thread ids (`crypto.randomUUID()`) and the clock (`new Date()`) are
 * parameters. A handler whose database write throws stops there: the page's
 * `catch` only logs.
 */
module ChatPage {
  import opened Common
  import opened LocalDb

  /** The title a new thread gets, and the one that lets the stored title be set. */
  const NewChatTitle := "New Chat"

  /** How many characters of the first message become the title. */
  const TitleLength: nat := 20

  /** The fixed text the page stores as the assistant's answer. */
  const MockResponse := "This is a mock response from the assistant. In a real application, this would be the response from the LLM API."

  /** The user's message as the page builds it. */
  function UserMessage(id: string, threadId: string, content: string, now: nat): Message {
    Message(id, threadId, content, User, now)
  }

  /** The assistant's (mock) answer as the page builds it. */
  function AssistantMessage(id: string, threadId: string, now: nat): Message {
    Message(id, threadId, MockResponse, Assistant, now)
  }

  /** The thread `createNewChat` creates. */
  function NewThread(id: string, now: nat): (t: Thread)
    ensures t.title == NewChatTitle && t.lastMessageId == "" && t.id == id
  {
    Thread(id, now, now, "", NewChatTitle)
  }

  /**
   * The page's thread list after a send: every thread with the selected id
   * gets the assistant message as last message, the first 20 characters of
   * the content as title and a new `updatedAt`; the others are untouched.
   */
  function AfterSend(ts: seq<Thread>, threadId: string, lastMessageId: string, content: string, now: nat)
    : (r: seq<Thread>)
    ensures |r| == |ts|
    ensures forall i :: 0 <= i < |ts| && ts[i].id != threadId ==> r[i] == ts[i]
    ensures forall i :: 0 <= i < |ts| && ts[i].id == threadId ==>
      r[i].lastMessageId == lastMessageId && r[i].title == Prefix(content, TitleLength)
      && r[i].updatedAt == now && r[i].id == ts[i].id && r[i].createdAt == ts[i].createdAt
  {
    seq(|ts|, i requires 0 <= i < |ts| =>
      if ts[i].id == threadId
      then ts[i].(lastMessageId := lastMessageId, title := Prefix(content, TitleLength), updatedAt := now)
      else ts[i])
  }

  /** After one more message is stored, an id is taken when it was taken before or is that message's. */
  lemma HasMessageIdAfterAdd(ms: seq<Message>, m: Message, id: string)
    ensures HasMessageId(ms + [m], id) <==> HasMessageId(ms, id) || m.id == id
  {
    if HasMessageId(ms + [m], id) {
      var x :| x in ms + [m] && x.id == id;
      assert x in ms || x == m;
    }
    if m.id == id {
      assert m in ms + [m];
    }
    if HasMessageId(ms, id) {
      var x :| x in ms && x.id == id;
      assert x in ms + [m];
    }
  }

  /** Both writes of an exchange are accepted: neither id is stored and the two differ. */
  ghost predicate ExchangeStored(ms: seq<Message>, userMessageId: string, assistantMessageId: string) {
    !HasMessageId(ms, userMessageId) && assistantMessageId != userMessageId && !HasMessageId(ms, assistantMessageId)
  }

  /**
   * The message table after the two writes of an exchange: unchanged when the
   * user's message is refused, with only that message when the assistant's is
   * refused, otherwise with both, the user's first.
   */
  ghost function StoredExchange(ms: seq<Message>, threadId: string, content: string,
                                userMessageId: string, assistantMessageId: string, now: nat): (r: seq<Message>)
    ensures ms <= r && |r| <= |ms| + 2
    ensures |r| == |ms| + 2 <==> ExchangeStored(ms, userMessageId, assistantMessageId)
    ensures forall m :: m in r[|ms|..] ==> m.threadId == threadId
  {
    if HasMessageId(ms, userMessageId) then ms
    else
      var u := UserMessage(userMessageId, threadId, content, now);
      if assistantMessageId == userMessageId || HasMessageId(ms, assistantMessageId) then ms + [u]
      else ms + [u, AssistantMessage(assistantMessageId, threadId, now)]
  }

  /** The guard lets the send through: a truthy selected thread id and content that is not blank. */
  predicate SendAllowed(selected: Option<string>, content: string)
    ensures SendAllowed(selected, content) ==> selected.Some? && selected.value != "" && content != ""
  {
    Truthy(selected) && Trim(content) != ""
  }

  /** Content made of whitespace only is never sent, whatever thread is selected. */
  lemma BlankContentIsNotSent(selected: Option<string>, content: string)
    requires Blank(content)
    ensures !SendAllowed(selected, content)
  {
    TrimEmptyIffBlank(content);
  }

  class ChatPage {
    var selectedThreadId: Option<string>
    var typedMessage: string
    var currentThreadMessages: seq<Message>
    var threads: seq<Thread>
    const db: LocalDB

    ghost predicate Valid()
      reads db
    {
      db.Valid()
    }

    /** The page as first rendered: nothing selected, nothing typed, no threads. */
    constructor(db: LocalDB)
      requires db.Valid()
      ensures Valid() && this.db == db
      ensures selectedThreadId == None && typedMessage == "" && currentThreadMessages == [] && threads == []
    {
      this.db := db;
      selectedThreadId := None;
      typedMessage := "";
      currentThreadMessages := [];
      threads := [];
    }

    /** `selectedThread`: the first listed thread whose id is the selected one, or null. */
    function SelectedThread(): (r: Option<Thread>)
      reads this
      ensures selectedThreadId.None? ==> r.None?
      ensures r.Some? ==> r.value in threads && Some(r.value.id) == selectedThreadId
      ensures selectedThreadId.Some? && (exists t :: t in threads && t.id == selectedThreadId.value) ==> r.Some?
      ensures r.Some? ==>
        exists i :: 0 <= i < |threads| && threads[i] == r.value && forall j :: 0 <= j < i ==> threads[j].id != r.value.id
    {
      if selectedThreadId.None? then None else ThreadWithId(threads, selectedThreadId.value)
    }

    /**
     * The two writes of `handleSendMessage`, user's message first; the second
     * is not attempted when the first is refused.
     */
    method StoreExchange(threadId: string, content: string, userMessageId: string, assistantMessageId: string, now: nat)
      returns (stored: bool)
      requires Valid()
      modifies db
      ensures Valid() && db.threads == old(db.threads)
      ensures db.messages == StoredExchange(old(db.messages), threadId, content, userMessageId, assistantMessageId, now)
      ensures stored <==> ExchangeStored(old(db.messages), userMessageId, assistantMessageId)
    {
      var newMessage := UserMessage(userMessageId, threadId, content, now);
      var added := db.AddMessage(newMessage, threadId);
      if added.Fail? {
        return false;
      }
      HasMessageIdAfterAdd(old(db.messages), newMessage, assistantMessageId);
      added := db.AddMessage(AssistantMessage(assistantMessageId, threadId, now), threadId);
      stored := added.Pass?;
    }

    /**
     * `handleSendMessage`: with a selected thread and non-blank content, stores
     * the user's message and the assistant's answer, sets the stored title to
     * the content's first 20 characters only while the page shows the title
     * "New Chat", appends both messages to the page, updates the page's copy
     * of the thread (always retitling it) and clears the input. A refused
     * write ends the handler with the page as it was.
     */
    method HandleSendMessage(content: string, userMessageId: string, assistantMessageId: string, now: nat)
      requires Valid()
      modifies this, db
      ensures Valid() && selectedThreadId == old(selectedThreadId)
      ensures !SendAllowed(old(selectedThreadId), content) ==>
        db.messages == old(db.messages)
      ensures SendAllowed(old(selectedThreadId), content) ==>
        db.messages == StoredExchange(old(db.messages), old(selectedThreadId).value, content,
                                      userMessageId, assistantMessageId, now)
      ensures !(SendAllowed(old(selectedThreadId), content) && ExchangeStored(old(db.messages), userMessageId, assistantMessageId)) ==>
        threads == old(threads) && currentThreadMessages == old(currentThreadMessages)
        && typedMessage == old(typedMessage) && db.threads == old(db.threads)
      ensures SendAllowed(old(selectedThreadId), content) && ExchangeStored(old(db.messages), userMessageId, assistantMessageId) ==>
        var tid := old(selectedThreadId).value;
        var shown := old(SelectedThread());
        && currentThreadMessages == old(currentThreadMessages)
             + [UserMessage(userMessageId, tid, content, now), AssistantMessage(assistantMessageId, tid, now)]
        && db.threads == (if shown.Some? && shown.value.title == NewChatTitle
                          then Retitled(old(db.threads), tid, Prefix(content, TitleLength))
                          else old(db.threads))
        && threads == AfterSend(old(threads), tid, assistantMessageId, content, now)
        && typedMessage == ""
    {
      if !Truthy(selectedThreadId) || Trim(content) == "" {
        return;
      }
      var tid := selectedThreadId.value;
      var stored := StoreExchange(tid, content, userMessageId, assistantMessageId, now);
      if !stored {
        return;
      }
      var selected := SelectedThread();
      if selected.Some? && selected.value.title == NewChatTitle {
        db.UpdateThreadTitle(tid, Prefix(content, TitleLength));
      }
      currentThreadMessages := currentThreadMessages
        + [UserMessage(userMessageId, tid, content, now), AssistantMessage(assistantMessageId, tid, now)];
      threads := AfterSend(threads, tid, assistantMessageId, content, now);
      typedMessage := "";
    }

    /**
     * `createNewChat`: stores a thread titled "New Chat" with no last message,
     * puts it first in the page's list, selects it and clears the shown
     * messages. A refused write changes nothing.
     */
    method CreateNewChat(newThreadId: string, now: nat)
      requires Valid()
      modifies this, db
      ensures Valid() && typedMessage == old(typedMessage) && db.messages == old(db.messages)
      ensures ThreadWithId(old(db.threads), newThreadId).Some? ==>
        threads == old(threads) && selectedThreadId == old(selectedThreadId)
        && currentThreadMessages == old(currentThreadMessages) && db.threads == old(db.threads)
      ensures ThreadWithId(old(db.threads), newThreadId).None? ==>
        threads == [NewThread(newThreadId, now)] + old(threads)
        && selectedThreadId == Some(newThreadId) && currentThreadMessages == []
        && db.threads == old(db.threads) + [NewThread(newThreadId, now)]
        && SelectedThread() == Some(NewThread(newThreadId, now))
    {
      var newThread := NewThread(newThreadId, now);
      var added := db.AddThread(newThread);
      if added.Fail? {
        return;
      }
      threads := [newThread] + threads;
      selectedThreadId := Some(newThread.id);
      currentThreadMessages := [];
      assert threads[0] == newThread;
    }

    /**
     * `reloadThreadsAndMessages`: shows the recent threads and, when there is
     * one, selects the most recent and shows its messages; otherwise the
     * selection and the shown messages stay as they were.
     */
    method ReloadThreadsAndMessages()
      requires Valid()
      modifies this
      ensures Valid() && typedMessage == old(typedMessage)
      ensures threads == db.GetRecentThreads()
      ensures |threads| > 0 ==>
        selectedThreadId == Some(threads[0].id) && currentThreadMessages == db.GetMessages(threads[0].id)
      ensures |threads| == 0 ==>
        selectedThreadId == old(selectedThreadId) && currentThreadMessages == old(currentThreadMessages)
    {
      var recent := db.GetRecentThreads();
      threads := recent;
      if |recent| > 0 {
        selectedThreadId := Some(recent[0].id);
        var messages := db.GetMessages(recent[0].id);
        currentThreadMessages := messages;
      }
    }
  }
}
