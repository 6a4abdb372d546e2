/**
 * The browser-side cache of chat threads and messages (client/lib/dexie/init.ts):
 * two tables keyed by `id`, each held as a sequence in insertion order, with
 * the `LocalDB` operations as methods (writes) and functions (queries).
 * Dates are milliseconds since the epoch.
 */
module LocalDb {
  import opened Common
  import opened Sorting

  datatype Role = User | Assistant

  datatype Message = Message(id: string, threadId: string, content: string, role: Role, createdAt: nat)

  datatype Thread = Thread(id: string, createdAt: nat, updatedAt: nat, lastMessageId: string, title: string)

  /** How many threads `getRecentThreads` returns at most. */
  const RecentLimit: nat := 10

  /** No two messages share an id (the table's primary key). */
  ghost predicate UniqueMessageIds(ms: seq<Message>) {
    forall i, j :: 0 <= i < j < |ms| ==> ms[i].id != ms[j].id
  }

  /** No two threads share an id (the table's primary key). */
  ghost predicate UniqueThreadIds(ts: seq<Thread>) {
    forall i, j :: 0 <= i < j < |ts| ==> ts[i].id != ts[j].id
  }

  /** Some stored message has this id. */
  ghost predicate HasMessageId(ms: seq<Message>, id: string) {
    exists m :: m in ms && m.id == id
  }

  /** The position of the first thread with the given id, or `|ts|` when there is none. */
  function IndexOfThread(ts: seq<Thread>, id: string): (i: nat)
    ensures i <= |ts|
    ensures forall j :: 0 <= j < i ==> ts[j].id != id
    ensures i < |ts| ==> ts[i].id == id
    decreases |ts|
  {
    if ts == [] then 0
    else if ts[0].id == id then 0
    else 1 + IndexOfThread(ts[1..], id)
  }

  /** The first thread with the given id (`Array.prototype.find`, and the table's `get`). */
  function ThreadWithId(ts: seq<Thread>, id: string): (r: Option<Thread>)
    ensures r.None? <==> forall t :: t in ts ==> t.id != id
    ensures r.Some? ==> r.value in ts && r.value.id == id
    ensures r.Some? ==> exists i :: 0 <= i < |ts| && ts[i] == r.value && forall j :: 0 <= j < i ==> ts[j].id != id
  {
    var i := IndexOfThread(ts, id);
    if i < |ts| then Some(ts[i]) else None
  }

  /** With unique ids, a thread is found by its id exactly when it is stored. */
  lemma ThreadWithIdFinds(ts: seq<Thread>, t: Thread)
    requires UniqueThreadIds(ts)
    requires t in ts
    ensures ThreadWithId(ts, t.id) == Some(t)
  {
    var k :| 0 <= k < |ts| && ts[k] == t;
    var i := IndexOfThread(ts, t.id);
    assert i <= k;
  }

  /** A thread added under a new id is found again by that id. */
  lemma {:induction false} AddedThreadIsFound(ts: seq<Thread>, t: Thread)
    requires forall u :: u in ts ==> u.id != t.id
    ensures ThreadWithId(ts + [t], t.id) == Some(t)
  {
    var i := IndexOfThread(ts + [t], t.id);
    assert (ts + [t])[|ts|] == t;
    forall j | 0 <= j < |ts| ensures (ts + [t])[j].id != t.id {
      assert (ts + [t])[j] == ts[j];
      assert ts[j] in ts;
    }
    assert i == |ts|;
  }

  /** The messages of `ms` that belong to the thread, in table order. */
  function MessagesOf(ms: seq<Message>, threadId: string): (r: seq<Message>)
    ensures forall m :: m in r <==> m in ms && m.threadId == threadId
    ensures multiset(r) <= multiset(ms)
    decreases |ms|
  {
    if ms == [] then []
    else
      assert ms == [ms[0]] + ms[1..];
      if ms[0].threadId == threadId then [ms[0]] + MessagesOf(ms[1..], threadId)
      else MessagesOf(ms[1..], threadId)
  }

  function CreatedAt(m: Message): int { m.createdAt }

  function UpdatedAt(t: Thread): int { t.updatedAt }

  /** `getMessages`: the thread's messages sorted by `createdAt`. */
  function MessagesSorted(ms: seq<Message>, threadId: string): (r: seq<Message>)
    ensures |r| == |MessagesOf(ms, threadId)|
  {
    SortBySorts(MessagesOf(ms, threadId), CreatedAt);
    SortBy(MessagesOf(ms, threadId), CreatedAt)
  }

  /**
   * `getMessages` returns exactly the stored messages of that thread, each as
   * often as it is stored and unchanged, oldest first.
   */
  lemma MessagesSortedSpec(ms: seq<Message>, threadId: string)
    ensures var r := MessagesSorted(ms, threadId);
      && (forall m :: m in r <==> m in ms && m.threadId == threadId)
      && multiset(r) == multiset(MessagesOf(ms, threadId))
      && forall i, j :: 0 <= i < j < |r| ==> r[i].createdAt <= r[j].createdAt
  {
    var r := MessagesSorted(ms, threadId);
    SortBySorts(MessagesOf(ms, threadId), CreatedAt);
    assert forall m :: m in r <==> m in multiset(r);
    assert SortedBy(r, CreatedAt);
  }

  /** The first `k` elements of a non-increasing arrangement `s` of `ts` are among `ts` and keep the order. */
  lemma TopOfSorted(ts: seq<Thread>, s: seq<Thread>, k: nat)
    requires k <= |s|
    requires multiset(s) == multiset(ts)
    requires SortedDescBy(s, UpdatedAt)
    ensures multiset(s[..k]) <= multiset(ts)
    ensures forall i, j :: 0 <= i < j < k ==> s[..k][i].updatedAt >= s[..k][j].updatedAt
  {
    assert s == s[..k] + s[k..];
    forall i, j | 0 <= i < j < k ensures s[..k][i].updatedAt >= s[..k][j].updatedAt {
      assert UpdatedAt(s[i]) >= UpdatedAt(s[j]);
    }
  }

  /** No element of `ts` left out of the first `k` of a non-increasing arrangement `s` is newer than one kept. */
  lemma LeftOutOfTopIsNoNewer(ts: seq<Thread>, s: seq<Thread>, k: nat)
    requires k <= |s|
    requires multiset(s) == multiset(ts)
    requires SortedDescBy(s, UpdatedAt)
    ensures forall t, y :: t in multiset(ts) - multiset(s[..k]) && y in s[..k] ==> t.updatedAt <= y.updatedAt
  {
    assert s == s[..k] + s[k..];
    assert multiset(ts) - multiset(s[..k]) == multiset(s[k..]);
    forall t, y | t in multiset(ts) - multiset(s[..k]) && y in s[..k] ensures t.updatedAt <= y.updatedAt {
      assert t in s[k..];
      var i :| 0 <= i < |s[k..]| && s[k..][i] == t;
      var j :| 0 <= j < k && s[..k][j] == y;
      assert UpdatedAt(s[j]) >= UpdatedAt(s[k + i]);
    }
  }

  /** `getRecentThreads`: order by `updatedAt`, reverse, keep the first ten. */
  function RecentThreads(ts: seq<Thread>): (r: seq<Thread>)
    ensures |r| == if |ts| < RecentLimit then |ts| else RecentLimit
  {
    SortBySorts(ts, UpdatedAt);
    var s := Reverse(SortBy(ts, UpdatedAt));
    s[..if |s| < RecentLimit then |s| else RecentLimit]
  }

  /**
   * The recent threads are stored threads, newest first, and every stored
   * thread left out is no newer than any thread returned.
   */
  lemma RecentThreadsSpec(ts: seq<Thread>)
    ensures var r := RecentThreads(ts);
      && |r| == (if |ts| < RecentLimit then |ts| else RecentLimit)
      && multiset(r) <= multiset(ts)
      && (forall i, j :: 0 <= i < j < |r| ==> r[i].updatedAt >= r[j].updatedAt)
      && forall t, y :: t in multiset(ts) - multiset(r) && y in r ==> t.updatedAt <= y.updatedAt
  {
    var sorted := SortBy(ts, UpdatedAt);
    SortBySorts(ts, UpdatedAt);
    ReverseMultiset(sorted);
    ReverseOfSorted(sorted, UpdatedAt);
    var s := Reverse(sorted);
    var k := if |s| < RecentLimit then |s| else RecentLimit;
    TopOfSorted(ts, s, k);
    LeftOutOfTopIsNoNewer(ts, s, k);
  }

  /** The threads with the one whose id matches retitled; nothing else changes. */
  function Retitled(ts: seq<Thread>, threadId: string, title: string): (r: seq<Thread>)
    ensures |r| == |ts|
    ensures forall i :: 0 <= i < |ts| ==> r[i] == if ts[i].id == threadId then ts[i].(title := title) else ts[i]
  {
    seq(|ts|, i requires 0 <= i < |ts| => if ts[i].id == threadId then ts[i].(title := title) else ts[i])
  }

  class LocalDB {
    var messages: seq<Message>
    var threads: seq<Thread>

    /** The primary keys of both tables are unique. */
    ghost predicate Valid()
      reads this
    {
      UniqueMessageIds(messages) && UniqueThreadIds(threads)
    }

    /** Opening the database finds whatever the browser has kept from earlier visits. */
    constructor(messages: seq<Message>, threads: seq<Thread>)
      requires UniqueMessageIds(messages) && UniqueThreadIds(threads)
      ensures Valid() && this.messages == messages && this.threads == threads
    {
      this.messages := messages;
      this.threads := threads;
    }

    /**
     * `addMessage`: stores the message with its `threadId` replaced by the
     * given one, every other field kept; a message whose id is already stored
     * is refused.
     */
    method AddMessage(message: Message, threadId: string) returns (r: Outcome)
      requires Valid()
      modifies this
      ensures Valid() && threads == old(threads)
      ensures HasMessageId(old(messages), message.id) ==>
        r == Fail(KeyExists) && messages == old(messages)
      ensures !HasMessageId(old(messages), message.id) ==>
        r == Pass && messages == old(messages) + [message.(threadId := threadId)]
    {
      if exists m :: m in messages && m.id == message.id {
        return Fail(KeyExists);
      }
      assert !HasMessageId(messages, message.id);
      messages := messages + [message.(threadId := threadId)];
      r := Pass;
    }

    /** `addThread`: stores the thread; a thread whose id is already stored is refused. */
    method AddThread(thread: Thread) returns (r: Outcome)
      requires Valid()
      modifies this
      ensures Valid() && messages == old(messages)
      ensures ThreadWithId(old(threads), thread.id).Some? ==> r == Fail(KeyExists) && threads == old(threads)
      ensures ThreadWithId(old(threads), thread.id).None? ==> r == Pass && threads == old(threads) + [thread]
      ensures r == Pass ==> GetThread(thread.id) == Some(thread)
    {
      if ThreadWithId(threads, thread.id).Some? {
        return Fail(KeyExists);
      }
      AddedThreadIsFound(threads, thread);
      threads := threads + [thread];
      r := Pass;
    }

    /** `getThread`: the stored thread with that id, if any. */
    function GetThread(id: string): (r: Option<Thread>)
      reads this
      ensures r.Some? ==> r.value in threads && r.value.id == id
      ensures r.None? <==> forall t :: t in threads ==> t.id != id
    {
      ThreadWithId(threads, id)
    }

    /** `getRecentThreads`: see RecentThreads and RecentThreadsSpec. */
    function GetRecentThreads(): seq<Thread>
      reads this
    {
      RecentThreads(threads)
    }

    /** `getMessages`: see MessagesSorted and MessagesSortedSpec. */
    function GetMessages(threadId: string): seq<Message>
      reads this
    {
      MessagesSorted(messages, threadId)
    }

    /**
     * `updateThreadTitle`: only the title of the thread with that id changes;
     * an unknown id changes nothing.
     */
    method UpdateThreadTitle(threadId: string, title: string)
      requires Valid()
      modifies this
      ensures Valid() && messages == old(messages)
      ensures threads == Retitled(old(threads), threadId, title)
    {
      threads := Retitled(threads, threadId, title);
    }
  }
}
