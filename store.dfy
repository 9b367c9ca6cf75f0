/**
 * The guestbook's in-memory message store: the list of messages, newest first,
 * and the counter that hands out message ids. Each locked region of the original
 * (one insertion, one snapshot) is one atomic step here.
 */
module Store {

  /** A wall-clock reading, supplied by the caller; the model never inspects it. */
  type Time = int

  /** One posted note. */
  datatype Message = Message(id: int, author: string, content: string, created: Time)

  /** The store's whole state: the messages (index 0 is the newest) and the next id to hand out. */
  datatype StoreState = StoreState(messages: seq<Message>, nextID: int)

  /** The result of one insertion: the new state and the message that was stored. */
  datatype Inserted = Inserted(store: StoreState, msg: Message)

  const SeedAuthor: string := "System"
  const SeedContent: string := "Welcome to the SLRS-Admin devops web testing! -V1"

  /**
   * The ids are strictly decreasing from front to back (so they are unique and the
   * list is newest first) and every id is below the counter.
   */
  ghost predicate NewestFirst(st: StoreState)
  {
    (forall i, j :: 0 <= i < j < |st.messages| ==> st.messages[i].id > st.messages[j].id) &&
    (forall i :: 0 <= i < |st.messages| ==> st.messages[i].id < st.nextID)
  }

  /**
   * The shape of every state the store reaches: the message at position k has id
   * |messages| - k, and the counter is one above the newest id.
   */
  ghost predicate Dense(st: StoreState)
  {
    st.nextID == |st.messages| + 1 &&
    forall k :: 0 <= k < |st.messages| ==> st.messages[k].id == |st.messages| - k
  }

  /** The set of ids carried by a list of messages. */
  ghost function Ids(ms: seq<Message>): set<int>
  {
    set m | m in ms :: m.id
  }

  /** The ids 1, 2, ..., n. */
  ghost function UpTo(n: int): (s: set<int>)
    ensures forall x :: x in s <==> 1 <= x <= n
    decreases n
  {
    if n <= 0 then {} else UpTo(n - 1) + {n}
  }

  /** The store at process start: the one seed message with id 1, and the counter at 2. */
  function Initial(now: Time): (st: StoreState)
    ensures |st.messages| == 1 && st.nextID == 2
    ensures st.messages[0].id == 1 && st.messages[0].author == SeedAuthor
    ensures Dense(st) && Ids(st.messages) == {1}
  {
    StoreState([Message(1, SeedAuthor, SeedContent, now)], 2)
  }

  /**
   * One insertion: the new message takes the counter as its id, the counter goes up
   * by one, the message goes to the front and the old list follows it unchanged.
   */
  function InsertInto(st: StoreState, author: string, content: string, now: Time): (r: Inserted)
    ensures r.msg.id == st.nextID && r.store.nextID == st.nextID + 1
    ensures r.msg.author == author && r.msg.content == content && r.msg.created == now
    ensures |r.store.messages| == |st.messages| + 1
    ensures r.store.messages[0] == r.msg && r.store.messages[1..] == st.messages
  {
    var msg := Message(st.nextID, author, content, now);
    Inserted(StoreState([msg] + st.messages, st.nextID + 1), msg)
  }

  /** Insertion keeps the ids strictly decreasing and below the counter. */
  lemma InsertKeepsNewestFirst(st: StoreState, author: string, content: string, now: Time)
    requires NewestFirst(st)
    ensures NewestFirst(InsertInto(st, author, content, now).store)
  {
    var ms := InsertInto(st, author, content, now).store.messages;
    forall i, j | 0 <= i < j < |ms| ensures ms[i].id > ms[j].id {
      if i > 0 {
        assert ms[i] == st.messages[i - 1] && ms[j] == st.messages[j - 1];
      } else {
        assert ms[j] == st.messages[j - 1];
      }
    }
  }

  /** Insertion keeps the store dense. */
  lemma InsertKeepsDense(st: StoreState, author: string, content: string, now: Time)
    requires Dense(st)
    ensures Dense(InsertInto(st, author, content, now).store)
  {
    var ms := InsertInto(st, author, content, now).store.messages;
    forall k | 0 < k < |ms| ensures ms[k].id == |ms| - k {
      assert ms[k] == st.messages[k - 1];
    }
  }

  /** A dense store is newest first, and its ids are unique. */
  lemma DenseIsNewestFirst(st: StoreState)
    requires Dense(st)
    ensures NewestFirst(st)
    ensures forall i, j :: 0 <= i < |st.messages| && 0 <= j < |st.messages| && i != j ==>
              st.messages[i].id != st.messages[j].id
  {
  }

  /** A dense store carries exactly the ids 1 .. nextID - 1: no duplicates, no gaps. */
  lemma {:induction false} DenseIds(st: StoreState)
    requires Dense(st)
    ensures Ids(st.messages) == UpTo(st.nextID - 1)
    decreases |st.messages|
  {
    var ms := st.messages;
    if ms == [] {
      assert UpTo(0) == {};
    } else {
      var rest := StoreState(ms[1..], st.nextID - 1);
      assert Dense(rest) by {
        forall k | 0 <= k < |ms[1..]| ensures ms[1..][k].id == |ms[1..]| - k {
          assert ms[1..][k] == ms[k + 1];
        }
      }
      DenseIds(rest);
      assert ms == [ms[0]] + ms[1..];
      assert Ids(ms) == {ms[0].id} + Ids(ms[1..]) by {
        forall x | x in Ids(ms) ensures x in {ms[0].id} + Ids(ms[1..]) {
          var m :| m in ms && m.id == x;
          if m != ms[0] {
            assert m in ms[1..];
          }
        }
      }
      assert UpTo(st.nextID - 1) == {st.nextID - 1} + UpTo(st.nextID - 2);
    }
  }

  /**
   * The guestbook store. Each method is one critical section of the original:
   * Insert is the write-locked update, Snapshot the read-locked copy.
   */
  class MessageStore {
    var messages: seq<Message>
    var nextID: int

    /** The abstract value of the store. */
    function State(): StoreState
      reads this
    {
      StoreState(messages, nextID)
    }

    /** The invariant every reachable store satisfies. */
    ghost predicate Valid()
      reads this
    {
      Dense(State())
    }

    /** The store as the process starts it, with the seed message created at `now`. */
    constructor (now: Time)
      ensures Valid()
      ensures State() == Initial(now)
    {
      messages := [Message(1, SeedAuthor, SeedContent, now)];
      nextID := 2;
    }

    /** Stores a new message at the front under the next id and returns it. */
    method Insert(author: string, content: string, now: Time) returns (msg: Message)
      requires Valid()
      modifies this
      ensures Valid()
      ensures Inserted(State(), msg) == InsertInto(old(State()), author, content, now)
    {
      InsertKeepsDense(State(), author, content, now);
      var id := nextID;
      nextID := nextID + 1;
      msg := Message(id, author, content, now);
      messages := [msg] + messages;
    }

    /**
     * A copy of all messages in their current order (newest first, ids counting
     * down to 1); the store is left as it is.
     */
    method Snapshot() returns (msgs: seq<Message>)
      requires Valid()
      ensures msgs == messages
      ensures |msgs| == nextID - 1
      ensures forall i, j :: 0 <= i < j < |msgs| ==> msgs[i].id > msgs[j].id
      ensures Ids(msgs) == UpTo(|msgs|)
    {
      DenseIsNewestFirst(State());
      DenseIds(State());
      msgs := messages;
    }
  }
}
